# A verified model of elelem's engine

elelem is a provider-neutral engine for conversations with tool-calling language models. Its central
promise is a transcript protocol: every tool call an assistant message declares is answered exactly once,
by the tool messages directly behind it, or the next provider request is illegal. Many separate pieces of
code have to keep that promise. This project models them in Dafny, in the form they have in Go (methods
with loops, classes with fields, pure functions), and proves that they agree.

`Transcript.Paired` states the protocol over indices only, without reference to any of the algorithms.
Everything else is measured against it:

| module | models |
|---|---|
| `Transcript`, `Sequences` | messages, tool calls, the pairing relation and its structure; vocabulary for what a list consists of |
| `Validators` | the OpenAI look-ahead validator and the Anthropic pending/answered machine |
| `Repair`, `RepairExact` | transcript repair, and exactly which messages it keeps |
| `Compaction`, `Eviction`, `CompactionTheorems`, `Tokens` | history compaction under an arbitrary counter, what it may remove, and the built-in counter |
| `Assembler`, `AssemblerTheorems`, `AssemblerOrder`, `AssistantTurn` | the tool-call delta assembler over a mutable map of records, and the assembled turn |
| `AnthropicStream`, `AnthropicStreamTheorems`, `AnthropicTurn` | streaming versus non-streaming Anthropic turns, and what both convey |
| `Usage`, `Retry` | the usage ledger, the retry loop, backoff |
| `Truncation` | tool-result truncation |
| `Wire`, `ChatImages` | the two message translations |
| `Dispatch` | semaphore-bounded tool dispatch as a state machine over all schedules |
| `UserQueue`, `ToolRound`, `ToolVerdicts` | the user message queue, how one tool round enters the transcript, and what the caller's decisions mean for it |
| `RunSpec` | a whole run as a value: a log of rounds, each a function of the ones before and of the outside |
| `RunTheorems` | what every run does, told in terms of its inputs and not of those functions |
| `Drivers`, `RunLoop`, `Engine` | the driver with its own books, the run state machine that refines `RunSpec`, and the promise of a whole run |

The main results:

- Every run is legal (`Engine.Run`, for every driver output, hook, tool, decision and producer): each request is
  paired, offers exactly the tools of its round, and is the transcript the round starts with; over budget it lost
  oldest units only, nothing that must survive, and, under an additive counter, no unit in vain. Each turn says what
  the final attempt streamed. Each round starts from what was sent, the turn, one answer for every call as the caller
  decided, the injections, and the queued turns. The response reports how the run ended, for every kind of end, and
  every attempt is billed, in every field. `RunTheorems` tells all this in terms of what goes into a run, not of the
  functions the engine is proved against.
- The two validators decide the same relation up to the reuse of ids across turns; repair's output is
  accepted, repair changes nothing in a transcript that is legal already, and it keeps exactly the messages that
  `RepairExact.Survives` names.
- Compaction drops, again and again, the oldest unit that need not survive, keeps pairing and everything that must
  survive, ends with whole exchanges, and always settles. For an additive counter it makes exactly the drops that are
  needed, as the handler does that recounts after each of them, while giving the counter at most 2n messages.
- The delta assembler refines a pure per-call fold if and only if every opening finds room in its map; for
  every stream whatsoever what it drains has distinct nonempty ids within the caps. The unconditional
  refinement is false of the code: at the per-round cap, reusing an index inserts the alias first and then
  drops the new call, whose later fragments are appended to the old call
  (`AssemblerTheorems.BurstLosesCall`, `AssemblerTheorems.ReuseAtCapMisroutes`, engine.go:607-630).
- The drained calls come out in the order of their openings if and only if indices increase. A comment promises that
  relocation preserves the order (engine.go:734-735); the code puts the displaced call behind the new one, so the
  model follows the code (`AssemblerOrder.ReuseReorders`).
- Any chunking of an Anthropic message assembles to the same turn as its replay: the text, the thinking and the calls
  of its blocks.
- A denied call is answered by an error and its tool makes no difference to the run; every other call is answered by
  what its tool said.
- Truncation keeps the proportional cut if that fits, and otherwise the first shorter one to fit.

What the model assumes of the caller, as the code does: only assistant messages of a prompt carry tool
calls; messages of injected origin carry none and are not tool results (recordInjections, engine.go:1155-1160,
guarantees it for its own; where a prompt breaks this under repair, what must survive compaction is not stated);
a prompt is paired unless repair is on; the token-limit handler is the default one.
A response that reports the round ceiling, a failing stream or a failing hook behind the recorded turn may
end in unanswered calls, as in the code (engine.go:118-143); legality is stated for requests, for final
answers and for the exits of tool execution.

## Model

| member | source | states |
|---|---|---|
| Validators.ValidateOpenAI | drivers/openai/translate.go:669-698 | the unit look-ahead scan accepts exactly the paired transcripts whose roles are set and whose calls have non-blank ids and names |
| Validators.ValidateToolCallUnit | drivers/openai/translate.go:700-758 | a unit is accepted iff its calls have distinct non-blank identities and the messages directly behind answer each exactly once |
| Validators.CheckIdentities | drivers/openai/translate.go:709-728 | accepts iff all ids and names are non-blank and the ids pairwise distinct, and returns the set of ids |
| Validators.CheckResults | drivers/openai/translate.go:730-755 | accepts iff the results answer the calls exactly once each, as multisets of ids |
| Validators.ValidateAnthropic | drivers/anthropic/translate.go:776-895 | the streaming pending/answered machine accepts exactly the paired transcripts over the four roles with nonempty ids and names in which no two assistant turns share an id |
| Validators.ValidateAssistantMessage | drivers/anthropic/translate.go:840-867 | accepts iff every call has id and name, ids are distinct and none is pending; the pending set grows by exactly these ids |
| Validators.StepResult | drivers/anthropic/translate.go:869-895 | an accepted result moves the machine to a state that again means what the two maps are meant to mean |
| Validators.RejectResult | drivers/anthropic/translate.go:869-895 | a result the machine rejects makes the transcript illegal, however it goes on |
| Validators.ValidatorsAgree | drivers/anthropic/translate.go:776-895 | among transcripts with named calls and known roles, Anthropic accepts iff OpenAI accepts and no id is reused across assistant turns |
| Repair.RepairTranscript | transcript.go:3-26 | the index-driven loop computes the recursive repair about which the theorems speak |
| Repair.RepairToolUnit | transcript.go:49-89 | returns the repaired unit and the index behind its contiguous results |
| Repair.DedupeToolCalls | transcript.go:30-44 | keeps the first call of every id, in order, and collects all ids |
| Repair.CollectAnswers | transcript.go:57-63 | finds the end of the contiguous results and the ids they answer |
| Repair.SelectAnswers | transcript.go:74-86 | keeps the first result of every wanted id, in order |
| Repair.DedupeIds | transcript.go:30-44 | deduplication leaves distinct ids, the same set of ids, and only calls that were there |
| Repair.FirstAnswersIds | transcript.go:74-86 | the selected results have distinct ids and answer exactly the wanted ids that were answered at all |
| Repair.RepairUnitAnswered | transcript.go:46-89 | a repaired unit is gone entirely or answers each of its remaining calls exactly once |
| Repair.RepairIsLegal | transcript.go:3-89 | whatever the damage, the repaired transcript is paired |
| Repair.RepairPassesOpenAI | transcript.go:3-89 | with set roles and named calls the OpenAI validator accepts what repair leaves |
| Repair.RepairKeepsPaired | transcript.go:3-89 | repair is the identity on transcripts that are paired already |
| Repair.RepairIdempotent | transcript.go:3-89 | repairing twice is repairing once, for every input |
| Repair.CompleteUnitSurvives | transcript.go:49-89 | a fully answered unit survives verbatim and in place, whatever surrounds it, stray and repeated results right behind it included |
| Repair.UnitLostIffUnanswered | transcript.go:49-89 | a unit is judged by its contiguous results alone, and is lost if and only if some call has no result among them |
| Repair.PlainMessageSurvives | transcript.go:13-18 | a message that is neither a result nor carries calls survives in place, whatever surrounds it |
| Repair.RepairedFrom | transcript.go:3-89 | everything repair leaves was in the input, up to removed repeated calls |
| RepairExact.RepairMends | transcript.go:3-89 | repair keeps, in order, exactly the messages without calls, the messages whose every call has a result in the run behind them, and the first such result for every id called; of repeated calls the first is left |
| RepairExact.MendsUnique | transcript.go:3-89 | only one transcript is a repair in that sense |
| Compaction.LastConversationalUserIndex | limit.go:217-226 | the index of the newest user turn that was not injected, or -1 |
| Compaction.LastAnsweringAssistantIndex | limit.go:231-240 | the index of the newest model turn that was not injected, or -1 |
| Compaction.FindUnitEnd | limit.go:297-308 | the end of a unit: its head and all contiguous results behind it |
| Compaction.IsLiveToolExchange | limit.go:310-333 | decides membership in the newest unit with calls that no user turn follows |
| Compaction.FirstDroppableUnit | limit.go:242-272 | the oldest message that is not pinned, or -1 |
| Compaction.DroppableFromIsFirst | limit.go:242-272 | the message so found is not pinned and everything before it is |
| Eviction.PinnedIsProtected | limit.go:242-333 | the four tests of the scan protect exactly the system prompt, injections no model turn has followed, the newest user turn, and the exchange with the newest calls while no user has spoken since |
| Eviction.NoneDroppable | limit.go:242-272 | the scan finds nothing exactly when everything must survive |
| Eviction.DropIsOldest | limit.go:139-171 | a drop removes one whole unit that need not survive, with everything in front of it protected, and nothing else |
| Eviction.OldestIsUnique | limit.go:242-308 | there is at most one such drop |
| Eviction.MidExchangeMeans | limit.go:277-295 | a transcript starts mid-exchange exactly when the first message behind the system prompt is neither a user turn nor protected |
| Eviction.NeededIsUnique | limit.go:57-188 | two sequences of drops that are all called for and leave none out are the same |
| Compaction.NextDrop | limit.go:132-184 | one iteration stops, fails or goes on exactly as the estimate, the budget and the counted oldest unit decide, and gives the counter that unit and nothing else |
| Compaction.FindDrop | limit.go:133-151 | the pass goes on iff it is over budget or, having dropped, stands mid-exchange, and something is droppable; then the oldest unit is split off |
| Compaction.DecidesPass | limit.go:124-188 | what one iteration decides is what the whole pass comes to from there |
| Compaction.DecidesHanded | limit.go:124-188 | what one iteration gives to the counter, and the pass from there, is what the whole pass gives |
| Compaction.TokenCounter.CountTokens | limit.go:82-155 | every count is booked with the number of messages it is given |
| Compaction.EvictUntilEstimatedToFit | limit.go:124-188 | the eviction loop over the running estimate computes the pass function, reports the number of removed messages, and gives the counter exactly what the pass has to count |
| Compaction.TokenLimitEvent.IsOverBudget | limit.go:46-55 | gives the counter the messages once, stores the count, and reports whether it exceeds the budget or counting failed |
| Compaction.TokenLimitEvent.DropUntilEstimatedToFit | limit.go:124-188 | replaces the event's messages by the outcome of one pass, and gives the counter what that pass has to count |
| Compaction.TokenLimitEvent.DropOldestUnits | limit.go:65-107 | the two-level loop leaves exactly the compacted transcript, and gives the counter exactly what the compaction has to count, on success and on failure |
| CompactionTheorems.CompactIsDrops | limit.go:65-188 | for every counter, compaction comes to a number of iterated drops |
| CompactionTheorems.CompactionEvicts | limit.go:65-188 | for every counter, compaction goes from the transcript to its result by dropping the oldest unit that need not survive, one at a time |
| CompactionTheorems.DropKeepsPaired | limit.go:242-308 | removing the oldest droppable unit of a paired transcript leaves a paired transcript |
| CompactionTheorems.CompactionKeepsPaired | limit.go:57-188 | for every counter and budget, compaction of a paired transcript is paired |
| CompactionTheorems.PinSurvivesDrop | limit.go:242-333 | a pinned message survives a drop and is pinned afterwards: the pinned set never shrinks |
| CompactionTheorems.CompactionKeepsPins | limit.go:57-188 | for every counter, the result is a subsequence that still holds everything that had to survive, and all of it must survive still |
| CompactionTheorems.CompactionSettles | limit.go:65-107 | for an arbitrary counter, success means the authoritative count fits, everything must survive, or at most one message is left |
| CompactionTheorems.CompactionEndsAtExchange | limit.go:120-188 | with positive costs and a user turn, a compaction that dropped anything leaves, behind the system prompt, a user turn or a message that must survive |
| CompactionTheorems.PassStopsAtExchange | limit.go:132-138 | conversely, with an estimate that fits a pass drops nothing, unless it has dropped something and no exchange opens the transcript |
| CompactionTheorems.PassIsSimple | limit.go:109-188 | for an additive counter one pass ends where recounting after every drop ends, with the estimate always the true count |
| CompactionTheorems.FastIsSimple | limit.go:65-188 | for an additive counter with positive message cost, compaction equals the simple handler, and what is given to the counter is at most 2n messages |
| CompactionTheorems.CompactionIsNeeded | limit.go:57-188 | for an additive counter every drop is called for, by the budget or by an exchange cut in two, and none that is called for and possible is missing |
| CompactionTheorems.PassHandsEachOnce | limit.go:112-188 | for an arbitrary counter, what a pass counts is exactly what it drops, each message once, and never more than the transcript |
| CompactionTheorems.HandedAtMostQuadratic | limit.go:65-188 | for an arbitrary counter, a compaction gives it at most n(n + 3) / 2 messages |
| Tokens.CountBuiltIn | tokens.go:65-121 | the nested accumulating loops compute the sum over messages and tools, or fail when the tokenizer does |
| Tokens.CountAll | tokens.go:71-103 | one outer loop adds the cost of every group and its overhead to the running total |
| Tokens.RolesAreNames | message.go:26-33 | roles and their names correspond one to one |
| Tokens.MessageCostIs | tokens.go:73-94 | a message costs its role, text, answered id, reasoning, envelope if present, and every call's name and arguments, and four more |
| Tokens.ToolsCostIs | tokens.go:97-114 | every tool costs its name, description and schema, and eight more |
| Tokens.CountFails | tokens.go:65-121 | the count fails exactly when the tokenizer fails on one of the texts it is made of |
| Tokens.ProviderReasoningMeans | message.go:18-22 | an envelope counts as present unless it is blank or a JSON null between blanks |
| Tokens.BlankIsTrimmed | engine.go:1276-1283 | blank is what trimming on both sides leaves nothing of |
| Tokens.BuiltInIsAdditive | tokens.go:65-121 | with a tokenizer that does not fail, the built-in counter is additive with positive message cost |
| Tokens.BuiltInCompaction | limit.go:65-188 | so compaction under the built-in counter is the simple handler within 2n counted messages |
| Assembler.ToolCallAssembler.Consume | engine.go:593-662 | one delta changes the map of records exactly as the pure step, including relocation before the cap check |
| Assembler.ToolCallAssembler.Continue | engine.go:636-653 | a continuing fragment changes the record at its index and no other |
| Assembler.ToolCallAssembler.Relocate | engine.go:600-617 | the previous occupant stays reachable under an unused index |
| Assembler.ToolCallAssembler.Open | engine.go:619-653 | a new record starts with the delta and shares nothing with the others |
| Assembler.ToolCallAssembler.Drain | engine.go:474-531 | visits the keys in increasing order and yields each nonempty id once, with blank arguments normalized |
| Assembler.ToolCallAssembler.DrainOne | engine.go:487-527 | a record is drained iff its id is nonempty and not drained before, and records still to come stay as they were |
| Assembler.FindUnusedIndex | engine.go:736-746 | the least index that is not negative and above every key |
| Assembler.SortKeys | engine.go:482-486 | the keys in strictly increasing order, each once |
| Assembler.IncreasingUnique | engine.go:482-486 | that order is unique, so the drained list does not depend on map iteration order |
| AssemblerTheorems.DrainedAlwaysLegal | engine.go:474-531 | for every stream whatsoever: pairwise distinct nonempty ids, at most 512 calls, at most 1 MiB of arguments each |
| AssemblerTheorems.AssemblerRefinesFold | engine.go:474-662 | for orderly streams with room, any interleaving and any reuse of indices: the drained calls are exactly the opened calls, each with its own fragments in order, as far as they fit under the argument cap |
| AssemblerTheorems.AllFragmentsFit | engine.go:644-653 | below the cap that is every fragment |
| AssemblerTheorems.FoldIsAssembled | engine.go:474-662 | in plain terms: as many calls as were opened, each once, under its own id and name, with its own fragments, or an empty object for blank ones |
| AssemblerTheorems.DrainKeepsFirsts | engine.go:482-530 | for every map: of the finished records in key order, exactly those whose nonempty id no earlier key has |
| AssemblerTheorems.RefinesExactlyWithRoom | engine.go:593-662 | that refinement holds if and only if every opening finds room in the map, an occupied index taking one key more |
| AssemblerTheorems.FewerThanCapRefine | engine.go:593-662 | read off the stream: fewer than 512 calls are assembled one by one, whatever their indices |
| AssemblerTheorems.OwnIndicesRefine | engine.go:593-662 | read off the stream: up to 512 calls at indices of their own are assembled one by one |
| AssemblerTheorems.CapRefinesIffLastIndexFree | engine.go:600-634 | exactly 512 calls are assembled one by one if and only if the index of the last is unoccupied |
| AssemblerTheorems.DroppedForGood | engine.go:607-630 | an opening without room makes the drained list shorter than the list of opened calls, whatever follows |
| AssemblerTheorems.BurstLosesCall | engine.go:600-634 | the concrete input: 512 calls from a driver that never sets an index are orderly and within both caps, yet not all of them are assembled |
| AssemblerTheorems.ReuseAtCapMisroutes | engine.go:607-630 | the failing family: one short of the cap, a call that reuses an index is lost and its next fragment is appended to another call |
| AssemblerOrder.InOrderIffIncreasing | engine.go:474-662 | the calls of an orderly stream are drained in the order of their openings if and only if there are at most 512 of them and each is opened at an index above all earlier ones |
| AssemblerOrder.ReuseReorders | engine.go:734-746 | the concrete input: three calls at index 0 are all assembled, and come out in another order |
| AssemblerOrder.ReuseInverts | engine.go:607-617 | reusing an occupied index always leaves the displaced call at a higher key than the new one |
| AssemblerOrder.DrainInLists | engine.go:482-530 | records with distinct nonempty ids, each at one key, come out in the order of their keys |
| AssistantTurn.Assemble | engine.go:428-464 | the callback loop and the drain yield the message the deltas amount to |
| AssistantTurn.TurnSays | engine.go:555-591 | that message carries the deltas' texts, one behind the other, their reasonings likewise, and the drained calls of their tool-call fragments in order |
| AssistantTurn.TurnRefinesFold | engine.go:457-662 | its calls are the opened ones, each with its own fragments, whenever the map has room |
| AssistantTurn.AssembledCallsDistinct | engine.go:474-531 | whatever a driver streams, the assembled turn has distinct nonempty call ids |
| AnthropicStream.StreamState.EmitEventDelta | drivers/anthropic/translate.go:897-944 | one event updates the block-to-ordinal map and emits exactly one delta, none, or an error |
| AnthropicStreamTheorems.StreamCalls | drivers/anthropic/translate.go:897-944 | after any prefix of a chunking the assembler holds one record per started tool block with what was sent for it |
| AnthropicStreamTheorems.HoldsNext | drivers/anthropic/translate.go:897-944 | every legal next event keeps the records in step with what has been sent, from any such state |
| AnthropicStreamTheorems.SameCalls | drivers/anthropic/translate.go:897-1035 | streamed and replayed calls drain to the same list |
| AnthropicStreamTheorems.StreamJoins | drivers/anthropic/translate.go:897-944 | text and thinking accumulate to the bodies of their blocks, in block order |
| AnthropicStreamTheorems.StreamingMatchesReplay | drivers/anthropic/translate.go:946-1035 | any chunking below the caps yields the text, the reasoning and the drained calls of the non-streaming replay |
| AnthropicTurn.ReplayConveys | drivers/anthropic/translate.go:946-1035 | the assembled replay carries the bodies of the text blocks, of the thinking blocks, and the declared calls, the first for every nonempty id, blank arguments as an empty object |
| AnthropicTurn.StreamConveys | drivers/anthropic/translate.go:897-944 | so does the turn assembled from any chunking of the message |
| AnthropicTurn.ConveysUnique | drivers/anthropic/translate.go:946-960 | only one turn does, so both paths bring about the same message |
| AnthropicTurn.ConsumeStream | drivers/anthropic/driver.go:262-307 | the stream loop delivers deltas until the first event that makes no sense; for a chunking of any message it succeeds and conveys that message |
| AnthropicTurn.EmitMessageContent | drivers/anthropic/translate.go:961-1035 | the replayed deltas, tool calls numbered in order, convey the message |
| Usage.AddUsageAccounts | usage.go:44-83 | adding a round's usage adds its attempts: in each of the seven fields, what is billed and what the recorded failures burned are all attempts; the wasted counts are the sums over the failures |
| Usage.AddUsageKeepsSubsets | usage.go:3-22 | the documented subset relations between token fields survive accumulation |
| Usage.AddUsageLabels | usage.go:61-75 | model and response id are the last ones any call named, the finish reason is that of the last call, named or not |
| Retry.ParseRetryAfterSeconds | retry.go:45-56 | every int64 number of seconds becomes a delay in [0, 24h], exact in between (section 7.1.3 of RFC 7231) |
| Retry.Configured | retry.go:238-271 | zero means default; what passes is a valid configuration, and exactly the negative or misordered ones are errors |
| Retry.Backoff | retry.go:584-595 | without overflow, min(Initial * 2^(n-1), MaxDelay), or one nanosecond more in the one case that is named |
| Retry.Overshoots | retry.go:585-588 | leaving the loop early at half the ceiling is off by at most one nanosecond for every later attempt |
| Retry.Delay | retry.go:571-605 | the wait lies in [0, MaxDelay]; a respected hint is capped; jitter takes away at most half |
| Retry.AfterFailure | retry.go:373-432 | a failed attempt is recorded once with its tokens and exactly the wait its failure calls for, the loop waits that long before it goes on, and another attempt follows only if the failure was retryable, quiet and not the last |
| Retry.CallWithRetry | retry.go:311-361 | exactly the attempts that quiet, retryable failures call for, at most MaxAttempts, with the recorded wait behind each but the last; the exhausted exit is unreachable, the caller sees the deltas of the final attempt only, and the usage accounts for every attempt and names the final one |
| Retry.RetryAccounts | retry.go:408-423 | clearing the failed counts and carrying the aggregate bills every attempt exactly once |
| Truncation.ClampToolResultBytes | engine.go:1521-1533 | computes the clamp about which the lemmas speak |
| Truncation.FitTruncatedResult | engine.go:1537-1561 | the shrink loop terminates and computes the proportional cut |
| Truncation.TruncateToolResult | engine.go:1484-1513 | computes the truncation about which the lemmas speak |
| Truncation.FitShape | engine.go:1537-1561 | the loop ends in the bare marker, or in a cut that fits and is no longer than where it started |
| Truncation.TruncationFits | engine.go:1484-1561 | the result is the content clamped to a prefix, or a prefix with the marker, or the bare marker; it costs at most the cap unless it is the bare marker, and is the content itself when that fits |
| Truncation.ClampExactly | engine.go:1521-1533 | within the byte limit nothing changes; beyond it exactly the first runes stay, 64 per allowed token, bytes that are no text replaced |
| Truncation.FitShrinks | engine.go:1537-1561 | the lengths tried each follow from the cost of the one before, all but the last are too long, and the last is the result: a cut that fits or cannot be counted, or the bare marker at length zero |
| Truncation.TruncationKeeps | engine.go:1484-1513 | case by case: no cap keeps everything; clamped content that fits or cannot be counted stays; anything else is cut, starting from the proportional length |
| Truncation.ProportionalCutKept | engine.go:1505-1561 | the proportional cut is the result if it fits or cannot be counted; anything shorter, the bare marker included, comes from a longer cut that did not fit, by the proportional step or one rune |
| Truncation.CutLeavesRoom | engine.go:1484-1533 | the nonlinear bound: a proportional cut plus the marker never again exceeds the clamp of 64 times the cap |
| Truncation.TruncationIdempotent | engine.go:1484-1561 | when the marker itself fits, truncating twice is truncating once |
| Wire.CountCacheBreakpoint | drivers/anthropic/translate.go:168-193 | a valid hint counts once and is accepted iff fewer than four were counted before |
| Wire.CheckMessage | drivers/anthropic/translate.go:205-225 | a checked message extends the accepted prefix, or the whole transcript is unacceptable |
| Wire.ToToolResultMessage | drivers/anthropic/translate.go:197-229 | consumes exactly the maximal run of results and counts each of their hints once |
| Wire.ToAnthropicParam | drivers/anthropic/translate.go:131-161 | one step of the outer loop emits the next group of the input |
| Wire.ToAnthropicMessages | drivers/anthropic/translate.go:105-164 | translates iff every hint is valid, at most four messages are hinted and each message converts; then the output is the grouping, with a leading system message set apart |
| Wire.GroupedIsExact | drivers/anthropic/translate.go:105-229 | the grouping loses, duplicates and reorders nothing, and no two result messages are adjacent |
| Wire.ResultsRideTogether | drivers/anthropic/translate.go:195-229 | in a paired transcript all results of a turn form the single message right behind it, in order |
| Wire.ToOpenAIMessages | drivers/openai/translate.go:491-533 | without the inserted messages the output is the input one to one; each inserted one stands directly behind a maximal run of results and carries exactly the images of those results that have some, in order, under their call ids |
| Wire.TranslateAll | drivers/openai/translate.go:500-531 | the loop keeps the images of a run pending until the run ends |
| ChatImages.ImagesCollected | drivers/openai/translate.go:505-526 | the images collected are those of exactly the tool results that carry some |
| Wire.TranslateNext | drivers/openai/translate.go:505-526 | one message: what ends a run flushes its images first, a result keeps its images for later |
| Wire.FlushToolImages | drivers/openai/translate.go:506-509 | ending a run inserts its images, if any, in one message and nothing otherwise |
| Dispatch.StepKeepsInvariant | engine.go:896-951 | every step of hooks, dispatch loop, tasks and join keeps the dispatch invariant |
| Dispatch.BoundedConcurrency | engine.go:896-951 | at every moment of every schedule at most maxConcurrentTools tasks are in flight, no task has started while hooks are still firing, and a started task means that every hook succeeded |
| Dispatch.NeverStuck | engine.go:919-949 | until the function returns some step is enabled |
| Dispatch.SchedulesEnd | engine.go:896-951 | every schedule ends within 4n + 2 steps |
| Dispatch.OutcomesIgnoreSchedule | engine.go:903-951 | at return nothing is in flight, and the outcomes are the per-call results whatever the completion order, or none if a hook failed |
| UserQueue.UserMessageQueue.Enqueue | user_message_queue.go:37-53 | accepts exactly plain user messages with valid content while there is capacity, at the back, and changes nothing otherwise |
| UserQueue.UserMessageQueue.Drain | user_message_queue.go:68-76 | hands out everything accepted and not yet drained, in order, and empties the queue |
| UserQueue.NewUserMessageQueue | user_message_queue.go:23-33 | a queue exists iff the capacity is positive, and starts empty |
| ToolRound.RoundIsPaired | engine.go:1028-1078 | any outcomes of the pending calls, denied or not, with any injections, leave a paired transcript |
| ToolRound.AbortIsPaired | engine.go:840-866 | so does dropping the unanswerable calls when execution aborted |
| ToolRound.QueueIsPaired | engine.go:218-235 | queued user turns join a paired transcript at its end |
| ToolRound.ResultsAnswer | engine.go:1065-1078 | one result per call in call order answers every call exactly once |
| ToolVerdicts.DenialMeans | engine.go:868-894 | the decision in force is the last one about the call, and a call is denied iff that one denies it |
| ToolVerdicts.VerdictStands | engine.go:977-1026 | a denied call is answered by an error with the caller's text or the default one, without images and injections; any other by exactly what its tool said |
| ToolVerdicts.DenialIgnoresTool | engine.go:984-1005 | what the tool of a denied call would have said makes no difference |
| ToolVerdicts.InjectionsEnter | engine.go:1126-1175 | exactly the injections with a usable role enter, in order, each as a message of its own that names it |
| ToolVerdicts.AuditTrail | engine.go:1161-1163 | the audit trail is exactly these injections |
| Drivers.Driver.Call | engine.go:428-452 | takes paired transcripts only; the driver's own books grow by exactly this request and every attempt made for it, the reported usage bills exactly these, and what comes back is the final attempt |
| RunSpec.BudgetKeepsSendable | engine.go:1662-1711 | budget enforcement keeps pairing, and its success means fitting or nothing left to drop |
| RunSpec.RequestedIsPaired | engine.go:247-326 | what budgeting and repair make of a sendable transcript is paired |
| RunSpec.TurnRecorded | engine.go:367-413 | a recorded turn either leaves the transcript paired or waiting for exactly its calls |
| RunSpec.ToolsRunIsLegal | engine.go:817-866 | both exits of tool execution leave a paired transcript |
| RunSpec.EveryScheduleYieldsOutcomes | engine.go:896-951 | under every schedule of the dispatch the outcomes are exactly those the round records, or none if a start hook failed |
| RunSpec.EnteringIsSendable | engine.go:104-235 | every round of every run starts from a transcript the engine can send |
| RunSpec.EndsPaired | engine.go:104-235 | a final answer and both failing exits of tool execution leave a paired transcript |
| RunSpec.RunsAreDetermined | engine.go:104-235 | prompt, decisions, queued turns and the outside determine every request, attempt and turn of a run |
| RunSpec.DecidedByResumed | engine.go:151-216 | the decisions given to an executor are those with which the calls before the next round were executed |
| RunTheorems.BudgetTrims | engine.go:1587-1711 | within budget, or without one, the transcript stays as it is; otherwise it loses oldest units until it fits or nothing more can go, nothing that must survive, and under an additive counter none in vain |
| RunTheorems.RequestIsLegal | engine.go:247-365 | a request that goes out is paired, is the trimmed transcript or what repair keeps of it, offers the tools provided for its round or none in the forced final one, and nothing stood in its way |
| RunTheorems.TurnIsLegal | engine.go:428-662 | the turn says what the final attempt streamed; with fewer calls than the cap, or as many at their own indices, its calls are the streamed ones |
| RunTheorems.OutcomesAdd | engine.go:1028-1175 | a round adds one answer for every call, in call order and as decided, and then the usable injections of the calls that were not denied |
| RunTheorems.TroubleMeans | engine.go:817-1175 | tool execution fails exactly if a start hook fails, or a result hook, an outcome that was not denied, or the hook of a usable injection |
| RunTheorems.DeniedCallsDoNotRun | engine.go:984-1005 | two worlds that differ only in the tools of denied calls lead to the same transcript and the same error |
| RunTheorems.NextIsLegal | engine.go:127-216 | a further round starts from what was sent, the turn, what its tools added without any failure, and the queued turns; behind an answer it takes queued turns |
| RunTheorems.RunsAreLegal | engine.go:104-235 | all of this holds of every round of every run, and there are at most maxRounds requests |
| RunTheorems.TranscriptGrows | engine.go:104-235 | without budget and repair every round starts from an extension of every earlier one |
| RunTheorems.EndingsAreLegal | engine.go:104-235 | for every kind of end: the reported error has its reason, and the reported transcript is the one that reason leaves |
| RunTheorems.DecisionsAreGiven | request.go:735-751 | calls were executed with the caller's decisions on them, and without any in an automatic run |
| RunLoop.RunState.constructor | engine.go:95-102 | a run starts with the prompt, no usage, an empty log, a fresh driver and the queue's history as its baseline |
| RunLoop.RunState.EnforceBudget | engine.go:1587-1711 | leaves the transcript alone when it fits or counting fails, compacts it otherwise |
| RunLoop.RunState.PrepareTools | engine.go:247-274 | the round's tools, or none in the forced final round, and a budgeted transcript; or the first obstacle, with the transcript untouched |
| RunLoop.RunState.PrepareRound | engine.go:306-326 | optional repair comes before the hooks, and stays when they fail |
| RunLoop.RunState.Prepare | engine.go:104-116 | the first obstacle in source order, or the budgeted, then repaired transcript |
| RunLoop.RunState.StreamAssistant | engine.go:428-464 | one request to the driver; the turn is the assembly of the final attempt's deltas and of no other |
| RunLoop.RunState.SendRequest | engine.go:428-464 | the prepared request, its attempts and its turn enter driver and log together, and the usage with it still bills every attempt |
| RunLoop.RunState.RecordAssistant | engine.go:367-413 | the turn is appended and booked and the round counted, even when a hook fails |
| RunLoop.RunState.RecordTurn | engine.go:118-126 | the turn is recorded with its usage, and reported with the failure if a hook on it fails |
| RunLoop.RunState.ReportDriver | engine.go:1776-1805 | a failing driver is reported with what it said, if anything, and every attempt billed |
| RunLoop.RunState.SettleTurn | engine.go:118-131 | the turn is recorded, or the failing driver is reported with what it said and every attempt billed |
| RunLoop.RunState.TakeTurn | engine.go:104-127 | one round ends exactly as its obstacles, driver and hooks decide, with the transcript that then is reported |
| RunLoop.RunState.AcceptQueuedUserMessages | engine.go:218-235 | below the cap everything queued enters the transcript in FIFO order, at the cap nothing does, and nothing is lost or duplicated |
| RunLoop.RunState.EnterFirst | request.go:719-722 | an automatic run takes up everything that is queued, behind the prompt, before its first round |
| RunLoop.RunState.TakeUpQueued | engine.go:128-134 | behind an answer a further round starts iff queued turns were drained, from the answer and exactly these turns |
| RunLoop.RunState.RunToolCalls | engine.go:896-951 | all start hooks run first; one failing hook means that nothing ran |
| RunLoop.RunState.RecordToolOutcomes | engine.go:1028-1058 | results in call order, then usable injections in call order, recorded completely even when a hook or an outcome failed |
| RunLoop.RunState.RecordInjections | engine.go:1126-1175 | exactly the injections with a usable role enter the transcript and the audit trail, whatever the hooks do |
| RunLoop.RunState.ExecuteTools | engine.go:817-838 | everything is recorded or the calls are dropped, and an error is reported iff a hook or an outcome failed |
| RunLoop.RunState.ExecutePending | engine.go:182-201 | success starts the next round from exactly the recorded results, injections and drained turns, with nothing left in the queue; failure ends the run with the transcript tool execution left |
| RunLoop.RunState.Conclude | engine.go:127-149 | an answer, an unused executor for exactly the pending calls, or the round ceiling without one |
| RunLoop.RunState.RunOne | engine.go:104-149 | the log stays that of a run and what is reported is how it ends; rounds beyond the first follow answers and queued turns only |
| RunLoop.RunState.AnswerOrGoOn | engine.go:128-134 | behind an answer the run goes on iff queued turns came in, and ends with the answer otherwise |
| RunLoop.RunState.GoOn | engine.go:128-132 | rounds that queued turns lead to extend the same log |
| RunLoop.RunState.TakeNext | engine.go:201-215 | the round behind executed calls continues the same log with the given decisions |
| RunLoop.RunState.Proceed | engine.go:182-215 | executing and taking the next round continues the same log with the given decisions |
| RunLoop.RunState.Continue | engine.go:176-215 | the same, with OnError fired exactly once iff it fails |
| RunLoop.Executor.Execute | engine.go:151-216 | an executor runs its tools at most once and continues the run's log; a second call changes nothing, fires nothing and is refused |
| RunLoop.Begin | request.go:703-733 | the first rounds, with OnError fired exactly once iff they fail |
| RunLoop.Drive | request.go:735-751 | the loop around the executors keeps the log, the decisions, also those of a failing execution, and the OnError count, and leaves no executor behind in automatic mode |
| RunLoop.ExecuteNext | request.go:745-750 | one turn of that loop: the pending calls are executed with the given decisions |
| Engine.ReportIsLegal | engine.go:104-216 | every response ever given tells of a legal run and how it ended, and names exactly the calls of the last turn, with an executor iff there are any |
| Engine.Run | request.go:703-751 | a whole run, automatic or manual: the driver was sent exactly the requests of a legal run and every attempt it made is billed; calls were executed as decided; the response is how the run ended; OnError fires exactly once iff it fails; no executor beside an error |

## Left out

- Provider SDK calls, HTTP, SSE decoding and stream closing; the mcp/ directory; JSON, schemas and structured output; reasoning envelopes and their merging; capability tables; builder setters, callback chaining and logging: plumbing or libraries that are not shown.
- The BPE tokenizer, tool handlers, hooks, drivers and producers are parameters; a counter gives the same answer to the same question, and everything the outside does is a function of the round, the call or the attempt.
- Wall-clock time, contexts and the HTTP-date form of Retry-After: cancellation is an input of the retry loop.
- Custom token-limit handlers and the near-ceiling warning: the default handler is modelled.
- Classification of provider errors: an attempt's failure comes already classified.
- Cost in money, which is floating point, and a jitter draw rounded as a float64: the draw is a real in [0, 1).
- 64-bit overflow of token sums, of the next unused tool-call index and of counter totals; durations are modelled as int64.
- Byte counting of tool arguments: a character of the model stands for a byte there.
- Compaction.EvictUntilEstimatedToFit: evicts on a local sequence and the event is written once at the end of a pass, so the shifting of the backing array in place is not captured.
- Wire.ToAnthropicMessages: the conversion of a single message and its error are one uninterpreted predicate.
- Wire.ToOpenAIMessages: the conversion of a single message and its error are one uninterpreted predicate.
- AssistantTurn.Assemble: provider reasoning envelopes are not assembled, and a failing delta callback is one way for an attempt to fail.
- UserQueue.UserMessageQueue.Enqueue: the validation of message content is a flag of the caller.
- Drivers.Driver.Call: the driver is taken to be wrapped by the retry decorator.
- RunLoop.RunState.EnforceBudget: custom token-limit handlers and the hook behind compaction are not modelled.
- RunLoop.RunState.RunToolCalls: runs the calls as one step; `RunSpec.EveryScheduleYieldsOutcomes` ties it to every schedule of `Dispatch`, whose tasks, like the code's slots, do not cover a handler that outlives its timeout.
- RunLoop.RunState.RecordToolOutcomes: the text of an outcome is given, so unknown tools, image notes and the truncation of result and denial texts are not applied inside the run.
- RunLoop.Executor.Execute: the mutex around the flag is an atomic test-and-set.
- Engine.Run: request validation is a precondition, a caller of manual mode is a sequence of executions with arbitrary decisions that may stop anywhere, and the list of injections in the response is stated per tool round only.
