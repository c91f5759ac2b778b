/** The assistant turn the engine accumulates from a driver's deltas. */
module AssistantTurn {
  import opened Transcript
  import opened Assembler
  import opened AssemblerTheorems
  import opened Sequences
  import Tokens

  datatype Delta = Delta(text: string, reasoning: string, toolCall: Option<ToolCallDelta>)

  datatype Assembly = Assembly(text: string, reasoning: string, calls: Table)

  const EMPTY: Assembly := Assembly("", "", Table(map[], []))

  ghost function Absorb(turn: Assembly, d: Delta): (t: Assembly)
    requires Linked(turn.calls)
    ensures Linked(t.calls)
  {
    match d.toolCall
    case None => Assembly(turn.text + d.text, turn.reasoning + d.reasoning, turn.calls)
    case Some(call) =>
      StepLinked(turn.calls, call);
      Assembly(turn.text + d.text, turn.reasoning + d.reasoning, Step(turn.calls, call))
  }

  ghost function AbsorbAll(turn: Assembly, deltas: seq<Delta>): (t: Assembly)
    requires Linked(turn.calls)
    ensures Linked(t.calls)
  {
    if deltas == [] then turn
    else Absorb(AbsorbAll(turn, deltas[..|deltas| - 1]), deltas[|deltas| - 1])
  }

  ghost function Absorbed(deltas: seq<Delta>): (t: Assembly)
    ensures Linked(t.calls)
  {
    AbsorbAll(EMPTY, deltas)
  }

  /** The assistant message a stream of deltas amounts to. */
  ghost function Assembled(deltas: seq<Delta>): Message {
    var turn := AbsorbAll(EMPTY, deltas);
    Message(Assistant, turn.text, [], Drained(turn.calls), "", false, turn.reasoning, "", Turn, None, NoHint)
  }

  lemma {:induction false} AbsorbAllBounded(deltas: seq<Delta>)
    ensures Bounded(AbsorbAll(EMPTY, deltas).calls)
    decreases |deltas|
  {
    if deltas != [] {
      var n := |deltas| - 1;
      AbsorbAllBounded(deltas[..n]);
      if deltas[n].toolCall.Some? {
        StepBounded(AbsorbAll(EMPTY, deltas[..n]).calls, deltas[n].toolCall.value);
      }
    }
  }

  /** Whatever the driver streams, the calls of the assembled message have distinct nonempty ids. */
  lemma {:induction false} AssembledCallsDistinct(deltas: seq<Delta>)
    ensures var m := Assembled(deltas);
      Distinct(Ids(m.toolCalls)) && forall i :: 0 <= i < |m.toolCalls| ==> m.toolCalls[i].id != ""
  {
    var st := AbsorbAll(EMPTY, deltas).calls;
    var keys := SortedKeys(st.slots.Keys);
    assert forall k :: k in keys ==> k in Elems(keys);
    AbsorbAllBounded(deltas);
    DrainInBounded(keys, st);
  }

  // ----- what a turn says -----

  ghost function Texts(deltas: seq<Delta>): seq<string> {
    seq(|deltas|, i requires 0 <= i < |deltas| => deltas[i].text)
  }

  ghost function Reasonings(deltas: seq<Delta>): seq<string> {
    seq(|deltas|, i requires 0 <= i < |deltas| => deltas[i].reasoning)
  }

  ghost function CallDeltas(deltas: seq<Delta>): seq<ToolCallDelta> {
    Concat(seq(|deltas|, i requires 0 <= i < |deltas| =>
      if deltas[i].toolCall.Some? then [deltas[i].toolCall.value] else []))
  }

  /** An assistant turn with the text and the reasoning of the deltas, one behind the other, and the calls their
      fragments amount to. */
  ghost predicate Says(m: Message, deltas: seq<Delta>) {
    var cs := CallDeltas(deltas);
    && m.role.Assistant? && m.text == Concat(Texts(deltas)) && m.reasoning == Concat(Reasonings(deltas))
    && m.toolCalls == Drained(After(cs, |cs|))
    && m.images == [] && m.toolCallId == "" && !m.isError && m.providerReasoning == ""
    && m.origin.Turn? && m.injection.None? && m.cacheHint.NoHint?
  }

  lemma {:induction false} AfterPrefix(a: seq<ToolCallDelta>, b: seq<ToolCallDelta>, n: nat)
    requires n <= |a|
    ensures After(a + b, n) == After(a, n)
    decreases n
  {
    if n > 0 { AfterPrefix(a, b, n - 1); }
  }

  /** What one more delta adds. */
  lemma {:induction false} PartsSnoc(deltas: seq<Delta>, d: Delta)
    ensures Concat(Texts(deltas + [d])) == Concat(Texts(deltas)) + d.text
    ensures Concat(Reasonings(deltas + [d])) == Concat(Reasonings(deltas)) + d.reasoning
    ensures CallDeltas(deltas + [d]) == CallDeltas(deltas) + if d.toolCall.Some? then [d.toolCall.value] else []
  {
    var more := deltas + [d];
    assert Texts(more) == Texts(deltas) + [d.text];
    ConcatSnoc(Texts(deltas), d.text);
    assert Reasonings(more) == Reasonings(deltas) + [d.reasoning];
    ConcatSnoc(Reasonings(deltas), d.reasoning);
    CallDeltasSnoc(deltas, d);
  }

  lemma {:induction false} CallDeltasSnoc(deltas: seq<Delta>, d: Delta)
    ensures CallDeltas(deltas + [d]) == CallDeltas(deltas) + if d.toolCall.Some? then [d.toolCall.value] else []
  {
    var more, part := deltas + [d], if d.toolCall.Some? then [d.toolCall.value] else [];
    var parts := seq(|deltas|, i requires 0 <= i < |deltas| =>
      if deltas[i].toolCall.Some? then [deltas[i].toolCall.value] else []);
    assert seq(|more|, i requires 0 <= i < |more| =>
      if more[i].toolCall.Some? then [more[i].toolCall.value] else []) == parts + [part];
    ConcatSnoc(parts, part);
  }

  lemma {:induction false} AfterSnoc(cs: seq<ToolCallDelta>, c: ToolCallDelta)
    ensures After(cs + [c], |cs| + 1) == Step(After(cs, |cs|), c)
  {
    AfterPrefix(cs, [c], |cs|);
  }

  lemma {:induction false} AbsorbSnoc(deltas: seq<Delta>, d: Delta)
    ensures AbsorbAll(EMPTY, deltas + [d]) == Absorb(AbsorbAll(EMPTY, deltas), d)
  {
    assert (deltas + [d])[..|deltas|] == deltas;
  }

  ghost function Parts(deltas: seq<Delta>): (turn: Assembly)
    ensures Linked(turn.calls)
  {
    Assembly(Concat(Texts(deltas)), Concat(Reasonings(deltas)), After(CallDeltas(deltas), |CallDeltas(deltas)|))
  }

  lemma {:induction false} PartsAbsorb(deltas: seq<Delta>, d: Delta)
    ensures Parts(deltas + [d]) == Absorb(Parts(deltas), d)
  {
    PartsSnoc(deltas, d);
    var cs := CallDeltas(deltas);
    match d.toolCall {
      case None => assert CallDeltas(deltas + [d]) == cs;
      case Some(c) => AfterSnoc(cs, c);
    }
  }

  lemma {:induction false} AbsorbedParts(deltas: seq<Delta>)
    ensures AbsorbAll(EMPTY, deltas) == Parts(deltas)
    decreases |deltas|
  {
    if deltas != [] {
      var n := |deltas| - 1;
      AbsorbedParts(deltas[..n]);
      AbsorbSnoc(deltas[..n], deltas[n]);
      PartsAbsorb(deltas[..n], deltas[n]);
      assert deltas[..n] + [deltas[n]] == deltas;
    }
  }

  /** The turn says what was streamed, all of it and nothing else. */
  lemma {:induction false} TurnSays(deltas: seq<Delta>)
    ensures Says(Assembled(deltas), deltas)
  {
    AbsorbedParts(deltas);
  }

  /** When every call finds room its calls are the opened ones, each with its own fragments. */
  lemma {:induction false} TurnRefinesFold(deltas: seq<Delta>)
    requires var cs := CallDeltas(deltas); Orderly(cs) && RoomUpTo(cs, |cs|)
    ensures RefinesFold(CallDeltas(deltas)) && AssembledFrom(CallDeltas(deltas), Assembled(deltas).toolCalls)
  {
    TurnSays(deltas);
    AssemblerRefinesFold(CallDeltas(deltas));
    FoldIsAssembled(CallDeltas(deltas));
  }

  /** Whether a turn said anything at all. */
  predicate HasOutput(m: Message) {
    m.text != "" || m.reasoning != "" || m.toolCalls != [] || Tokens.HasProviderReasoning(m.providerReasoning)
  }

  /** The accumulation loop: one callback per delta, then the drain. */
  method Assemble(deltas: seq<Delta>) returns (m: Message)
    ensures m == Assembled(deltas)
  {
    var text, reasoning := "", "";
    var assembler := new ToolCallAssembler();
    for n := 0 to |deltas|
      invariant assembler.Valid() && fresh(assembler) && fresh(assembler.cells)
      invariant AbsorbAll(EMPTY, deltas[..n]) == Assembly(text, reasoning, assembler.state)
    {
      assert deltas[..n + 1][..n] == deltas[..n];
      var d := deltas[n];
      text, reasoning := text + d.text, reasoning + d.reasoning;
      if d.toolCall.Some? {
        assembler.Consume(d.toolCall.value);
      }
    }
    assert deltas[..|deltas|] == deltas;
    var calls := assembler.Drain();
    m := Message(Assistant, text, [], calls, "", false, reasoning, "", Turn, None, NoHint);
  }
}
