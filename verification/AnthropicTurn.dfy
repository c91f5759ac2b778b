/** The two paths of the Anthropic driver, and the turn both of them bring about: the text, the thinking and the calls
    of the message's blocks, in block order. */
module AnthropicTurn {
  import opened Transcript
  import opened Validators
  import opened Sequences
  import opened Assembler
  import opened AssemblerTheorems
  import opened AssistantTurn
  import opened AnthropicStream
  import opened AnthropicStreamTheorems

  // ----- what a message's blocks amount to -----

  ghost function Bodies(blocks: seq<Block>, n: nat, kind: Kind): seq<string>
    requires n <= |blocks|
  {
    seq(n, i requires 0 <= i < n => if blocks[i].kind == kind then blocks[i].body else "")
  }

  /** One finished call for every tool block among the first `n`. */
  ghost function Declared(blocks: seq<Block>, n: nat): seq<seq<ToolCall>>
    requires n <= |blocks|
  {
    seq(n, i requires 0 <= i < n =>
      if blocks[i].kind.ToolUse?
      then [ToolCall(blocks[i].id, blocks[i].name, if Blank(blocks[i].body) then "{}" else blocks[i].body)] else [])
  }

  /** The assistant turn with the blocks' text and thinking, one behind the other, and of the declared calls the first
      for every nonempty id. */
  ghost predicate Conveys(m: Message, blocks: seq<Block>) {
    var declared := Concat(Declared(blocks, |blocks|));
    && m.role.Assistant? && m.text == Concat(Bodies(blocks, |blocks|, Text))
    && m.reasoning == Concat(Bodies(blocks, |blocks|, Thinking))
    && Selects(m.toolCalls, declared, Firsts(Ids(declared), NonEmpty, {}))
    && m.images == [] && m.toolCallId == "" && !m.isError && m.providerReasoning == ""
    && m.origin.Turn? && m.injection.None? && m.cacheHint.NoHint?
  }

  /** That is only one turn. */
  lemma {:induction false} ConveysUnique(m: Message, m': Message, blocks: seq<Block>)
    requires Conveys(m, blocks) && Conveys(m', blocks)
    ensures m == m'
  {
    var declared := Concat(Declared(blocks, |blocks|));
    SelectsUnique(m.toolCalls, m'.toolCalls, declared, Firsts(Ids(declared), NonEmpty, {}));
  }

  ghost predicate BlocksWithinCaps(blocks: seq<Block>) {
    && Tools(blocks, |blocks|) <= MAX_TOOL_CALLS_PER_ROUND
    && forall i :: 0 <= i < |blocks| && blocks[i].kind.ToolUse? ==> |blocks[i].body| <= MAX_TOOL_CALL_ARGUMENTS
  }

  // ----- text and thinking -----

  lemma {:induction false} BodiesSnoc(blocks: seq<Block>, n: nat, kind: Kind)
    requires n < |blocks|
    ensures Concat(Bodies(blocks, n + 1, kind))
      == Concat(Bodies(blocks, n, kind)) + if blocks[n].kind == kind then blocks[n].body else ""
  {
    var part := if blocks[n].kind == kind then blocks[n].body else "";
    assert Bodies(blocks, n + 1, kind) == Bodies(blocks, n, kind) + [part];
    ConcatSnoc(Bodies(blocks, n, kind), part);
  }

  lemma {:induction false} ReplaySays(blocks: seq<Block>, n: nat, kind: Kind)
    requires n <= |blocks| && (kind.Text? || kind.Thinking?)
    ensures Channel(Replay(blocks, n), kind) == Concat(Bodies(blocks, n, kind))
    decreases n
  {
    if n > 0 {
      ReplaySays(blocks, n - 1, kind);
      ReplayChannel(blocks, n - 1, kind);
      BodiesSnoc(blocks, n - 1, kind);
    }
  }

  // ----- calls -----

  lemma {:induction false} DeclaredSnoc(blocks: seq<Block>, n: nat)
    requires n < |blocks|
    ensures var b := blocks[n];
      Concat(Declared(blocks, n + 1)) == Concat(Declared(blocks, n)) +
        if b.kind.ToolUse? then [ToolCall(b.id, b.name, if Blank(b.body) then "{}" else b.body)] else []
  {
    var b := blocks[n];
    var part := if b.kind.ToolUse? then [ToolCall(b.id, b.name, if Blank(b.body) then "{}" else b.body)] else [];
    assert Declared(blocks, n + 1) == Declared(blocks, n) + [part];
    ConcatSnoc(Declared(blocks, n), part);
  }

  function AllNormalized(calls: seq<ToolCall>): seq<ToolCall> {
    seq(|calls|, c requires 0 <= c < |calls| => Normalized(calls[c]))
  }

  lemma {:induction false} ReplayRecords(blocks: seq<Block>, n: nat)
    requires n < |blocks| && ReplaysCalls(blocks, n)
    requires Tools(blocks, n + 1) <= MAX_TOOL_CALLS_PER_ROUND
    requires blocks[n].kind.ToolUse? ==> |blocks[n].body| <= MAX_TOOL_CALL_ARGUMENTS
    ensures var b, st := blocks[n], Replay(blocks, n).calls;
      Replay(blocks, n + 1).calls.cells == st.cells +
        if b.kind.ToolUse? then [ToolCall(b.id, b.name, b.body)] else []
  {
    var b, k, st := blocks[n], Tools(blocks, n), Replay(blocks, n).calls;
    if b.kind.ToolUse? {
      DenseOpen(st, k, ToolCallDelta(At(k), b.id, b.name, b.body));
      assert Replay(blocks, n + 1).calls == Step(st, ToolCallDelta(At(k), b.id, b.name, b.body));
    } else {
      assert Replay(blocks, n + 1).calls == st;
    }
  }

  lemma {:induction false} NormalizedSnoc(calls: seq<ToolCall>, b: Block)
    ensures AllNormalized(calls + [ToolCall(b.id, b.name, b.body)])
      == AllNormalized(calls) + [ToolCall(b.id, b.name, if Blank(b.body) then "{}" else b.body)]
  {}

  ghost predicate ReplayFinishes(blocks: seq<Block>, n: nat)
    requires n <= |blocks|
  {
    AllNormalized(Replay(blocks, n).calls.cells) == Concat(Declared(blocks, n))
  }

  lemma {:induction false} FinishesNext(blocks: seq<Block>, n: nat)
    requires n < |blocks| && BlocksWithinCaps(blocks) && ReplayFinishes(blocks, n)
    ensures ReplayFinishes(blocks, n + 1)
  {
    DeclaredSnoc(blocks, n);
    ReplayCalls(blocks, n);
    ToolsGrow(blocks, n + 1, |blocks|);
    ReplayRecords(blocks, n);
    NormalizedSnoc(Replay(blocks, n).calls.cells, blocks[n]);
  }

  /** The records of the replay, finished, are the declared calls. */
  lemma {:induction false} ReplayDeclares(blocks: seq<Block>, n: nat)
    requires n <= |blocks| && BlocksWithinCaps(blocks)
    ensures ReplayFinishes(blocks, n)
  {
    assert Declared(blocks, 0) == [];
    for m := 0 to n
      invariant ReplayFinishes(blocks, m)
    {
      FinishesNext(blocks, m);
    }
  }

  function Ordinals(k: nat): seq<Index> {
    seq(k, i => At(i))
  }

  /** A dense table is drained record by record. */
  lemma {:induction false} DenseKeys(st: Table, k: nat)
    requires Dense(st, k)
    ensures SortedKeys(st.slots.Keys) == Ordinals(k)
  {
    forall x ensures x in Elems(Ordinals(k)) <==> x in st.slots.Keys {
      if x in st.slots {
        assert x == At(x.n) && Ordinals(k)[x.n] == x;
      }
    }
    IncreasingUnique(SortedKeys(st.slots.Keys), Ordinals(k));
  }

  lemma {:induction false} DrainedDense(st: Table, k: nat)
    requires Linked(st) && Dense(st, k)
    ensures var records := AllNormalized(st.cells);
      Selects(Drained(st), records, Firsts(Ids(records), NonEmpty, {}))
  {
    var keys := Ordinals(k);
    DenseKeys(st, k);
    DrainKeepsFirsts(keys, st, {});
    assert Listed(keys, st) == AllNormalized(st.cells);
    assert IdsAt(keys, st) == Ids(AllNormalized(st.cells));
  }

  // ----- both paths -----

  /** The replay of a message conveys its blocks. */
  lemma {:induction false} ReplayConveys(blocks: seq<Block>, deltas: seq<Delta>)
    requires BlocksWithinCaps(blocks) && Absorbed(deltas) == Replayed(blocks)
    ensures Conveys(Assembled(deltas), blocks)
  {
    var n := |blocks|;
    ReplaySays(blocks, n, Text);
    ReplaySays(blocks, n, Thinking);
    ReplayDeclares(blocks, n);
    ReplayCalls(blocks, n);
    DrainedDense(Replay(blocks, n).calls, Tools(blocks, n));
  }

  /** So does every chunking of it. */
  lemma {:induction false} StreamConveys(blocks: seq<Block>, events: seq<Event>, deltas: seq<Delta>)
    requires Chunks(blocks, events) && Absorbed(deltas) == Stream(events, |events|).turn
    ensures Stream(events, |events|).ok && Conveys(Assembled(deltas), blocks)
  {
    var n := |blocks|;
    StreamingMatchesReplay(blocks, events);
    ReplaySays(blocks, n, Text);
    ReplaySays(blocks, n, Thinking);
    ReplayDeclares(blocks, n);
    ReplayCalls(blocks, n);
    DrainedDense(Replay(blocks, n).calls, Tools(blocks, n));
  }

  lemma {:induction false} StaysFailed(events: seq<Event>, m: nat, n: nat)
    requires m <= n <= |events| && !Stream(events, m).ok
    ensures !Stream(events, n).ok && Stream(events, n).turn == Stream(events, m).turn
    decreases n
  {
    if m < n { StaysFailed(events, m, n - 1); }
  }

  // ----- the code -----

  /** Streaming: one callback per emitted delta, until the first event that makes no sense. */
  method ConsumeStream(events: seq<Event>) returns (deltas: seq<Delta>, ok: bool)
    ensures ok == Stream(events, |events|).ok && Absorbed(deltas) == Stream(events, |events|).turn
    ensures forall blocks {:trigger Chunks(blocks, events)} :: Chunks(blocks, events) ==>
      ok && Conveys(Assembled(deltas), blocks)
  {
    deltas, ok := EmitStream(events);
    forall blocks | Chunks(blocks, events) ensures ok && Conveys(Assembled(deltas), blocks) {
      StreamConveys(blocks, events, deltas);
    }
  }

  method EmitStream(events: seq<Event>) returns (deltas: seq<Delta>, ok: bool)
    ensures ok == Stream(events, |events|).ok && Absorbed(deltas) == Stream(events, |events|).turn
  {
    deltas, ok := [], true;
    var state := new StreamState();
    for n := 0 to |events|
      invariant ok && fresh(state) && Stream(events, n) == Streamed(state.toolCallIndexes, Absorbed(deltas), true)
    {
      var delta;
      delta, ok := state.EmitEventDelta(events[n]);
      if !ok {
        StaysFailed(events, n + 1, |events|);
        return;
      }
      if delta.Some? {
        AbsorbSnoc(deltas, delta.value);
        deltas := deltas + [delta.value];
      }
    }
  }

  /** Without streaming: the deltas of a finished message, in the order the callback receives them. */
  method EmitMessageContent(blocks: seq<Block>) returns (deltas: seq<Delta>)
    ensures Absorbed(deltas) == Replayed(blocks)
    ensures BlocksWithinCaps(blocks) ==> Conveys(Assembled(deltas), blocks)
  {
    deltas := [];
    var toolCallIndex := 0;
    for n := 0 to |blocks|
      invariant toolCallIndex == Tools(blocks, n)
      invariant AbsorbAll(EMPTY, deltas) == Replay(blocks, n)
    {
      var delta := DeltaFromContentBlock(blocks[n], toolCallIndex);
      if delta.None? {
        continue;
      }
      if delta.value.toolCall.Some? {
        toolCallIndex := toolCallIndex + 1;
      }
      AbsorbSnoc(deltas, delta.value);
      deltas := deltas + [delta.value];
    }
    if BlocksWithinCaps(blocks) { ReplayConveys(blocks, deltas); }
  }
}
