/** Streaming and non-streaming Anthropic turns reach the engine as deltas. Any chunking
    of a message's content blocks assembles to the same turn as the replay of the finished message. */
module AnthropicStream {
  import opened Transcript
  import opened Validators
  import opened Assembler
  import opened AssistantTurn

  datatype Kind = Text | Thinking | ToolUse | OtherKind

  /** `body` is the text, the thinking or the raw tool input. */
  datatype Block = Block(kind: Kind, id: string, name: string, body: string)

  datatype Event =
    | Start(index: nat, block: Block)
    | Fragment(index: nat, kind: Kind, payload: string)
    | OtherEvent

  // ----- the streaming path -----

  /** What one stream event does to the block-to-ordinal map and what it hands to the callback. */
  datatype Emission = Emission(indexes: map<nat, nat>, delta: Option<Delta>, ok: bool)

  function Emit(indexes: map<nat, nat>, e: Event): Emission {
    match e
    case OtherEvent => Emission(indexes, None, true)
    case Start(index, block) =>
      if !block.kind.ToolUse? then Emission(indexes, None, true)
      else Emission(indexes[index := |indexes|],
                    Some(Delta("", "", Some(ToolCallDelta(At(|indexes|), block.id, block.name, "")))), true)
    case Fragment(index, kind, payload) =>
      match kind
      case Text => Emission(indexes, Some(Delta(payload, "", None)), true)
      case Thinking => Emission(indexes, Some(Delta("", payload, None)), true)
      case ToolUse =>
        if index !in indexes then Emission(indexes, None, false)
        else Emission(indexes, Some(Delta("", "", Some(ToolCallDelta(At(indexes[index]), "", "", payload)))), true)
      case OtherKind => Emission(indexes, None, true)
  }

  datatype Streamed = Streamed(indexes: map<nat, nat>, turn: Assembly, ok: bool)

  /** One more event: a failed stream stays failed. */
  ghost function StreamNext(s: Streamed, e: Event): (t: Streamed)
    requires Linked(s.turn.calls)
    ensures Linked(t.turn.calls)
  {
    var emitted := Emit(s.indexes, e);
    if !s.ok || !emitted.ok then Streamed(emitted.indexes, s.turn, false)
    else Streamed(emitted.indexes, if emitted.delta.Some? then Absorb(s.turn, emitted.delta.value) else s.turn, true)
  }

  /** The engine's turn after the first `n` events. */
  ghost function Stream(events: seq<Event>, n: nat): (s: Streamed)
    requires n <= |events|
    ensures Linked(s.turn.calls)
  {
    if n == 0 then Streamed(map[], EMPTY, true) else StreamNext(Stream(events, n - 1), events[n - 1])
  }

  class StreamState {
    var toolCallIndexes: map<nat, nat>

    constructor ()
      ensures toolCallIndexes == map[]
    {
      toolCallIndexes := map[];
    }

    method EmitEventDelta(e: Event) returns (delta: Option<Delta>, ok: bool)
      modifies this
      ensures Emit(old(toolCallIndexes), e) == Emission(toolCallIndexes, delta, ok)
    {
      delta, ok := None, true;
      match e {
        case OtherEvent =>
        case Start(index, block) =>
          if block.kind.ToolUse? {
            var toolCallIndex := |toolCallIndexes|;
            toolCallIndexes := toolCallIndexes[index := toolCallIndex];
            delta := Some(Delta("", "", Some(ToolCallDelta(At(toolCallIndex), block.id, block.name, ""))));
          }
        case Fragment(index, kind, payload) =>
          match kind {
            case Text => delta := Some(Delta(payload, "", None));
            case Thinking => delta := Some(Delta("", payload, None));
            case ToolUse =>
              if index !in toolCallIndexes {
                return None, false;
              }
              delta := Some(Delta("", "", Some(ToolCallDelta(At(toolCallIndexes[index]), "", "", payload))));
            case OtherKind =>
          }
      }
    }
  }

  // ----- the non-streaming path -----

  /** Number of tool calls among the first `n` blocks. */
  function Tools(blocks: seq<Block>, n: nat): (k: nat)
    requires n <= |blocks|
    ensures k <= n
  {
    if n == 0 then 0 else Tools(blocks, n - 1) + if blocks[n - 1].kind.ToolUse? then 1 else 0
  }

  function DeltaFromContentBlock(b: Block, toolCallIndex: nat): Option<Delta> {
    match b.kind
    case Thinking => if b.body == "" then None else Some(Delta("", b.body, None))
    case Text => if b.body == "" then None else Some(Delta(b.body, "", None))
    case ToolUse => Some(Delta("", "", Some(ToolCallDelta(At(toolCallIndex), b.id, b.name, b.body))))
    case OtherKind => None
  }

  /** The engine's turn after replaying the first `n` blocks. */
  ghost function Replay(blocks: seq<Block>, n: nat): (turn: Assembly)
    requires n <= |blocks|
    ensures Linked(turn.calls)
  {
    if n == 0 then EMPTY
    else
      var delta := DeltaFromContentBlock(blocks[n - 1], Tools(blocks, n - 1));
      if delta.Some? then Absorb(Replay(blocks, n - 1), delta.value) else Replay(blocks, n - 1)
  }

  ghost function Replayed(blocks: seq<Block>): (turn: Assembly)
    ensures Linked(turn.calls)
  {
    Replay(blocks, |blocks|)
  }

  // ----- chunkings of a block list -----

  function Started(events: seq<Event>, n: nat): nat
    requires n <= |events|
  {
    if n == 0 then 0 else Started(events, n - 1) + if events[n - 1].Start? then 1 else 0
  }

  /** Everything sent for block `i` among the first `n` events. */
  function Sent(events: seq<Event>, n: nat, i: nat): string
    requires n <= |events|
  {
    if n == 0 then ""
    else
      Sent(events, n - 1, i) +
      if events[n - 1].Fragment? && events[n - 1].index == i then events[n - 1].payload else ""
  }

  /** Event `n` may come next: starts in block order; fragments of a started block of their
      kind; text and thinking never return to an earlier block. Tool input interleaves freely. */
  ghost predicate Follows(blocks: seq<Block>, events: seq<Event>, n: nat)
    requires n < |events|
  {
    match events[n]
    case OtherEvent => true
    case Start(i, b) =>
      && i == Started(events, n) && i < |blocks|
      && b.kind == blocks[i].kind && b.id == blocks[i].id && b.name == blocks[i].name
    case Fragment(i, kind, _) =>
      && i < Started(events, n) && i < |blocks| && blocks[i].kind == kind
      && (kind.Text? || kind.Thinking? ==>
          forall k :: i < k < |blocks| && blocks[k].kind == kind ==> Sent(events, n, k) == "")
  }

  function NormalizedArguments(s: string): string {
    if Blank(s) then "{}" else s
  }

  /** `events` is a chunking of `blocks` below the caps. */
  ghost predicate Chunks(blocks: seq<Block>, events: seq<Event>) {
    && (forall n :: 0 <= n < |events| ==> Follows(blocks, events, n))
    && Started(events, |events|) == |blocks|
    && Tools(blocks, |blocks|) <= MAX_TOOL_CALLS_PER_ROUND
    && forall i :: 0 <= i < |blocks| ==>
        if blocks[i].kind.ToolUse? then
          && NormalizedArguments(Sent(events, |events|, i)) == NormalizedArguments(blocks[i].body)
          && |Sent(events, |events|, i)| <= MAX_TOOL_CALL_ARGUMENTS && |blocks[i].body| <= MAX_TOOL_CALL_ARGUMENTS
        else Sent(events, |events|, i) == blocks[i].body || blocks[i].kind.OtherKind?
  }
}
