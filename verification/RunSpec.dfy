/** A run as a value: what a whole run sends, records and answers is a function of its prompt, of what the
    outside does, and of a log of its rounds. The theorems about every run are proved here. */
module RunSpec {
  import opened Transcript
  import opened Compaction
  import opened Eviction
  import opened CompactionTheorems
  import opened Repair
  import opened AssistantTurn
  import opened Usage
  import opened UserQueue
  import opened ToolRound
  import Retry
  import Dispatch

  datatype Config = Config(
    maxRounds: nat, autoToolCalls: bool, forceFinalAnswer: bool, transcriptRepair: bool, withTools: bool,
    hasQueue: bool, budget: int, counter: Counter, retry: Retry.RetryConfig)

  /** Caller code, provider and producers, by round number (and call index). */
  datatype World = World(
    tools: nat -> Option<seq<Compaction.Tool>>,
    rejected: nat -> bool,
    roundHookFails: nat -> bool,
    driver: nat -> Retry.Provider,
    turnHookFails: nat -> bool,
    finishHookFails: nat -> bool,
    startHookOk: (nat, nat) -> bool,
    outcome: (nat, nat) -> Outcome,
    resultHookFails: (nat, nat) -> bool,
    injectionHookFails: (nat, nat) -> bool,
    arrivals: nat -> seq<Arrival>)

  /** A message some producer tries to enqueue, and whether its content validates. */
  datatype Arrival = Arrival(message: Message, contentOk: bool)

  datatype RunError =
    | ToolsUnavailable | RequestRejected | BudgetFailed | RoundHookFailed | DriverFailed | TurnHookFailed
    | StartHookFailed | ToolFailed | FinishHookFailed | MaxRoundsExceeded | AlreadyExecuted

  /** A request handed to the driver. */
  datatype Request = Request(messages: seq<Message>, tools: seq<Compaction.Tool>)

  datatype Setup = Setup(config: Config, world: World, prompt: seq<Message>)

  /** One round: the decisions with which the calls before it were executed, the queued turns that entered right
      before it, and the transcript it starts from; once its request went out also that request, the number of
      attempts it took, and the turn that came back. */
  datatype Round =
    | Open(decisions: seq<Decision>, batch: seq<Message>, entering: seq<Message>)
    | Sent(decisions: seq<Decision>, batch: seq<Message>, entering: seq<Message>, request: Request, made: nat,
      turn: Message)

  ghost predicate FairDraws(w: World) {
    forall k: nat, n: nat :: 0.0 <= w.driver(k).random(n) < 1.0
  }

  ghost predicate ValidSetup(s: Setup) {
    && s.config.maxRounds >= 1 && Retry.Valid(s.config.retry) && FairDraws(s.world)
    && Sendable(s.config.transcriptRepair, s.prompt)
  }

  // ----- preparing a request -----

  /** Whether the round that is the `r`-th to run is the last one, in which the model must answer. */
  predicate Withheld(s: Setup, r: nat) {
    s.config.forceFinalAnswer && r == s.config.maxRounds
  }

  predicate ToolsMissing(s: Setup, n: nat) {
    s.config.withTools && !Withheld(s, n + 1) && s.world.tools(n).None?
  }

  /** The tools of the request of round `n`: the forced final round gets none. */
  function OfferedTools(s: Setup, n: nat): seq<Compaction.Tool> {
    if s.config.withTools && !Withheld(s, n + 1) && s.world.tools(n).Some? then s.world.tools(n).value else []
  }

  /** The transcript budget enforcement leaves: untouched when it fits or the counter fails, else compacted. */
  function Budgeted(c: Config, ms: seq<Message>, tools: seq<Compaction.Tool>): Pass {
    if c.budget <= 0 then Pass(ms, true)
    else
      match Count(c.counter, ms, tools)
      case None => Pass(ms, false)
      case Some(count) =>
        if count <= c.budget then Pass(ms, true)
        else
          var out := Compact(ms, tools, c.counter, c.budget);
          if out.ok && Count(c.counter, out.ms, tools).Some? then Pass(out.ms, true) else Pass(ms, false)
  }

  /** The messages of the request a transcript leads to. */
  function Requested(c: Config, ms: seq<Message>, tools: seq<Compaction.Tool>): seq<Message> {
    var kept := Budgeted(c, ms, tools).ms;
    if c.transcriptRepair then Repaired(kept) else kept
  }

  /** What keeps the request of round `n` from going out, in the order in which it is noticed. */
  function Obstacle(s: Setup, n: nat, ms: seq<Message>): Option<RunError> {
    if ToolsMissing(s, n) then Some(ToolsUnavailable)
    else if s.world.rejected(n) then Some(RequestRejected)
    else if !Budgeted(s.config, ms, OfferedTools(s, n)).ok then Some(BudgetFailed)
    else if s.world.roundHookFails(n) then Some(RoundHookFailed)
    else None
  }

  /** The request is within budget, or compaction could do no more for it. */
  ghost predicate Fits(c: Config, r: Request) {
    c.budget > 0 ==> AtRest(r.messages, r.tools, c.counter, c.budget)
  }

  /** Budget enforcement never breaks what the engine maintains, and ends within budget where it can. */
  lemma {:induction false} BudgetKeepsSendable(c: Config, ms: seq<Message>, tools: seq<Compaction.Tool>)
    requires Sendable(c.transcriptRepair, ms)
    ensures Sendable(c.transcriptRepair, Budgeted(c, ms, tools).ms)
    ensures Budgeted(c, ms, tools).ok ==> Fits(c, Request(Budgeted(c, ms, tools).ms, tools))
  {
    CompactionKeepsPaired(ms, tools, c.counter, c.budget);
    CompactionSettles(ms, tools, c.counter, c.budget);
  }

  /** Whatever a sendable transcript leads to is paired. */
  lemma {:induction false} RequestedIsPaired(c: Config, ms: seq<Message>, tools: seq<Compaction.Tool>)
    requires Sendable(c.transcriptRepair, ms)
    ensures Paired(Requested(c, ms, tools)) && Sendable(c.transcriptRepair, Requested(c, ms, tools))
    ensures Budgeted(c, ms, tools).ok ==> c.transcriptRepair || Fits(c, Request(Requested(c, ms, tools), tools))
  {
    BudgetKeepsSendable(c, ms, tools);
    if c.transcriptRepair { RepairIsLegal(Budgeted(c, ms, tools).ms); }
  }

  // ----- executing tools -----

  /** What call `i` of round `r` comes to, given the caller's decisions. */
  function OutcomeOf(s: Setup, r: nat, calls: seq<ToolCall>, decisions: seq<Decision>, i: nat): Outcome
    requires i < |calls|
  {
    Effective(DecisionFor(decisions, calls[i].id), s.world.outcome(r, i))
  }

  function Outcomes(s: Setup, r: nat, calls: seq<ToolCall>, decisions: seq<Decision>): (os: seq<Outcome>)
    ensures |os| == |calls|
  {
    seq(|calls|, i requires 0 <= i < |calls| => OutcomeOf(s, r, calls, decisions, i))
  }

  predicate HooksPass(s: Setup, r: nat, calls: seq<ToolCall>) {
    forall i :: 0 <= i < |calls| ==> s.world.startHookOk(r, i)
  }

  /** Some outcome failed or some result hook did. */
  predicate ResultFails(s: Setup, r: nat, outcomes: seq<Outcome>) {
    exists i :: 0 <= i < |outcomes| && (outcomes[i].failed || s.world.resultHookFails(r, i))
  }

  predicate InjectionFails(s: Setup, r: nat, js: seq<MessageInjection>) {
    exists i :: 0 <= i < |js| && UsableInjection(js[i]) && s.world.injectionHookFails(r, i)
  }

  function ToolError(s: Setup, r: nat, calls: seq<ToolCall>, decisions: seq<Decision>): Option<RunError> {
    var outcomes := Outcomes(s, r, calls, decisions);
    if !HooksPass(s, r, calls) then Some(StartHookFailed)
    else if ResultFails(s, r, outcomes) || InjectionFails(s, r, Injections(outcomes)) then Some(ToolFailed)
    else None
  }

  /** The transcript tool execution leaves: every result and then the injections, or without the calls if none ran. */
  function ToolsRun(s: Setup, r: nat, ms: seq<Message>, calls: seq<ToolCall>, decisions: seq<Decision>): seq<Message> {
    if HooksPass(s, r, calls) then AfterRound(ms, calls, Outcomes(s, r, calls, decisions)) else WithoutCalls(ms)
  }

  /** The dispatch of a round's calls, as the schedule model sees it. */
  function DispatchOf(s: Setup, r: nat, calls: seq<ToolCall>, decisions: seq<Decision>,
    maxConcurrent: nat): Dispatch.Calls<Outcome> {
    Dispatch.Calls(
      |calls|,
      (i: nat) => s.world.startHookOk(r, i),
      (i: nat) => if i < |calls| then OutcomeOf(s, r, calls, decisions, i) else s.world.outcome(r, i),
      maxConcurrent)
  }

  /** Under every schedule the dispatch returns exactly the outcomes a round records, or none if a start hook failed. */
  lemma {:induction false} EveryScheduleYieldsOutcomes(s: Setup, r: nat, calls: seq<ToolCall>, decisions: seq<Decision>,
                                                       maxConcurrent: nat,
                                                       steps: seq<Dispatch.Move>, states: seq<Dispatch.State<Outcome>>)
    requires var c := DispatchOf(s, r, calls, decisions, maxConcurrent);
      Dispatch.Executes(c, steps, states) && states[|steps|].phase.Returned?
    ensures var last := states[|steps|];
      && (last.phase.ok <==> HooksPass(s, r, calls))
      && |last.outcomes| == |calls|
      && forall i :: 0 <= i < |calls| ==>
          last.outcomes[i] == if HooksPass(s, r, calls) then Some(Outcomes(s, r, calls, decisions)[i]) else None
  {
    var c := DispatchOf(s, r, calls, decisions, maxConcurrent);
    Dispatch.OutcomesIgnoreSchedule(c, steps, states);
    assert forall i :: 0 <= i < |calls| ==> c.hookOk(i) == s.world.startHookOk(r, i);
    assert forall i :: 0 <= i < |calls| ==> c.result(i) == OutcomeOf(s, r, calls, decisions, i);
  }

  // ----- the log of a run -----

  /** What the driver sends back on its `made`-th attempt of round `n`, assembled. */
  ghost function TurnOf(s: Setup, n: nat, made: nat): Message {
    Assembled(s.world.driver(n).attempt(made).deltas)
  }

  /** The request of round `n` is what its transcript leads to, took exactly the attempts it had to take,
      and brought back the turn of the final one. */
  ghost predicate WellSent(s: Setup, n: nat, r: Round) {
    r.Sent? ==>
      && Obstacle(s, n, r.entering).None?
      && r.request == Request(Requested(s.config, r.entering, OfferedTools(s, n)), OfferedTools(s, n))
      && Retry.Makes(s.config.retry, s.world.driver(n), r.made)
      && r.turn == TurnOf(s, n, r.made)
  }

  function Turned(r: Round): seq<Message>
    requires r.Sent?
  {
    r.request.messages + [r.turn]
  }

  predicate Succeeded(s: Setup, n: nat, r: Round)
    requires r.Sent?
  {
    s.world.driver(n).attempt(r.made).failure.None?
  }

  /** Round `n` ended in a recorded turn. */
  predicate Recorded(s: Setup, n: nat, r: Round) {
    r.Sent? && Succeeded(s, n, r) && !s.world.turnHookFails(n + 1)
  }

  /** Round `n` may follow: queued turns came in behind an answer, or all pending calls were executed. */
  predicate MayContinue(s: Setup, n: nat, calls: seq<ToolCall>, decisions: seq<Decision>, batch: seq<Message>) {
    if calls == [] then s.config.autoToolCalls && batch != [] else ToolError(s, n, calls, decisions).None?
  }

  /** The transcript on which round `n` starts carries on where the turn before ended. */
  function CarriedOn(s: Setup, n: nat, turned: seq<Message>, calls: seq<ToolCall>, decisions: seq<Decision>)
    : seq<Message>
  {
    if calls == [] then turned else ToolsRun(s, n, turned, calls, decisions)
  }

  /** Round `n` follows queued turns behind an answer, or the execution of all pending calls. */
  ghost predicate Continues(s: Setup, n: nat, before: Round, decisions: seq<Decision>, batch: seq<Message>,
                            entering: seq<Message>)
    requires n >= 1
  {
    && Recorded(s, n - 1, before) && MayContinue(s, n, before.turn.toolCalls, decisions, batch)
    && entering == CarriedOn(s, n, Turned(before), before.turn.toolCalls, decisions) + batch
  }

  ghost predicate QueuedBatch(batch: seq<Message>) {
    forall i :: 0 <= i < |batch| ==> QueuedTurn(batch[i])
  }

  ghost predicate StartsRight(s: Setup, log: seq<Round>, k: nat)
    requires k < |log|
  {
    if k == 0 then log[k].entering == s.prompt + log[k].batch
    else Continues(s, k, log[k - 1], log[k].decisions, log[k].batch, log[k].entering)
  }

  ghost predicate LinkedAt(s: Setup, log: seq<Round>, k: nat)
    requires k < |log|
  {
    QueuedBatch(log[k].batch) && WellSent(s, k, log[k]) && StartsRight(s, log, k)
  }

  /** The log is that of a run, as far as it has got. */
  ghost predicate Chain(s: Setup, log: seq<Round>) {
    |log| <= s.config.maxRounds && forall k {:trigger LinkedAt(s, log, k)} :: 0 <= k < |log| ==> LinkedAt(s, log, k)
  }

  /** Every queued turn that entered, in order. */
  function Entered(log: seq<Round>): seq<Message> {
    if log == [] then [] else Entered(log[..|log| - 1]) + log[|log| - 1].batch
  }

  /** The driver was sent exactly the requests of the log, with exactly its attempts. */
  ghost predicate SentAll(log: seq<Round>, requests: seq<Request>, made: seq<nat>) {
    && |requests| == |made| == (if log != [] && log[|log| - 1].Open? then |log| - 1 else |log|)
    && forall k {:trigger log[k]} :: 0 <= k < |requests| ==>
      log[k].Sent? && log[k].request == requests[k] && log[k].made == made[k]
  }

  /** The log is a run, and the driver's books agree with it. */
  ghost predicate Kept(s: Setup, log: seq<Round>, requests: seq<Request>, made: seq<nat>) {
    ValidSetup(s) && Chain(s, log) && SentAll(log, requests, made)
  }

  /** The log is a run; the driver was sent exactly its requests, with exactly its attempts; and what has been drained
      from the queue since `base` are, in order, exactly the turns that entered its rounds. */
  ghost predicate Journal(s: Setup, log: seq<Round>, requests: seq<Request>, made: seq<nat>, base: seq<Message>,
                          drained: seq<Message>) {
    Kept(s, log, requests, made) && drained == base + Entered(log)
  }

  /** From the first round of an automatic run on, and after every execution of tools, nothing the run could still
      take up waits in the queue. */
  predicate Attended(s: Setup, log: seq<Round>, round: nat, drained: seq<Message>, accepted: seq<Message>) {
    ((s.config.autoToolCalls && log != []) || |log| > 1) && s.config.hasQueue && round < s.config.maxRounds ==>
      drained == accepted
  }

  /** The last round of the log is about to run, and everything so far is accounted for. */
  ghost predicate AtStart(log: seq<Round>, round: nat, messages: seq<Message>, usage: Usage,
    attempts: seq<Charge>) {
    |log| == round + 1 && log[round].Open? && messages == log[round].entering && Booked(usage, attempts)
  }

  /** The last round of the log has just been recorded, and everything so far is accounted for. */
  ghost predicate AtTurn(s: Setup, log: seq<Round>, round: nat, messages: seq<Message>, usage: Usage,
                         attempts: seq<Charge>) {
    && |log| == round > 0 && Recorded(s, round - 1, log[round - 1]) && messages == Turned(log[round - 1])
    && Booked(usage, attempts)
  }

  /** The turn of the last round is recorded. */
  lemma {:induction false} TurnSettles(s: Setup, log: seq<Round>, n: nat, messages: seq<Message>, usage: Usage,
                                       attempts: seq<Charge>)
    requires |log| == n + 1 && Recorded(s, n, log[n]) && Booked(usage, attempts) && messages == Turned(log[n])
    ensures AtTurn(s, log, n + 1, messages, usage, attempts) && PendingCalls(log) == log[n].turn.toolCalls
  {}

  /** The calls of the last turn. */
  function PendingCalls(log: seq<Round>): seq<ToolCall> {
    if log != [] && log[|log| - 1].Sent? then log[|log| - 1].turn.toolCalls else []
  }

  // ----- how a log grows -----

  lemma {:induction false} OpenRound(s: Setup, log: seq<Round>, r: Round, requests: seq<Request>, made: seq<nat>)
    requires Kept(s, log, requests, made) && |requests| == |log| < s.config.maxRounds && QueuedBatch(r.batch) && r.Open?
    requires if log == [] then r.entering == s.prompt + r.batch
             else Continues(s, |log|, log[|log| - 1], r.decisions, r.batch, r.entering)
    ensures Kept(s, log + [r], requests, made) && Entered(log + [r]) == Entered(log) + r.batch
  {
    var next := log + [r];
    assert next[..|log|] == log;
    forall k | 0 <= k < |next| ensures LinkedAt(s, next, k) {
      if k < |log| { assert LinkedAt(s, log, k); }
    }
  }

  lemma {:induction false} JournalOpens(s: Setup, log: seq<Round>, r: Round, requests: seq<Request>, made: seq<nat>,
                                        base: seq<Message>, drained: seq<Message>)
    requires Kept(s, log, requests, made) && |requests| == |log| < s.config.maxRounds && QueuedBatch(r.batch) && r.Open?
    requires if log == [] then r.entering == s.prompt + r.batch
             else Continues(s, |log|, log[|log| - 1], r.decisions, r.batch, r.entering)
    requires drained == base + Entered(log) + r.batch
    ensures Journal(s, log + [r], requests, made, base, drained)
  {
    OpenRound(s, log, r, requests, made);
    ConcatAssoc(base, Entered(log), r.batch);
  }

  /** The round in which a request went out, with what came of it. */
  function Closed(r: Round, request: Request, made: nat, turn: Message): Round {
    Sent(r.decisions, r.batch, r.entering, request, made, turn)
  }

  lemma {:induction false} CloseRound(s: Setup, log: seq<Round>, r: Round, requests: seq<Request>, made: seq<nat>)
    requires log != [] && log[|log| - 1].Open? && Kept(s, log, requests, made)
    requires r.Sent? && r == Closed(log[|log| - 1], r.request, r.made, r.turn) && WellSent(s, |log| - 1, r)
    ensures var next := log[|log| - 1 := r];
      && Kept(s, next, requests + [r.request], made + [r.made]) && Entered(next) == Entered(log)
      && Extends(log, next) && PendingCalls(next) == r.turn.toolCalls
  {
    var n, next := |log| - 1, log[|log| - 1 := r];
    assert next[..n] == log[..n];
    forall k | 0 <= k < |next| ensures LinkedAt(s, next, k) {
      assert LinkedAt(s, log, k);
    }
  }

  // ----- every run is legal -----

  /** A turn either ends the exchange or waits for its calls. */
  lemma {:induction false} TurnRecorded(repair: bool, ms: seq<Message>, m: Message)
    requires Sendable(repair, ms) && Paired(ms) && m.role.Assistant? && m.origin.Turn? && Distinct(Ids(m.toolCalls))
    ensures if m.toolCalls == [] then Sendable(repair, ms + [m]) && Paired(ms + [m])
      else Awaiting(repair, ms + [m], m.toolCalls)
  {
    if m.toolCalls == [] {
      PlainPaired([m]);
      SendableConcat(repair, ms, [m]);
    } else {
      assert (ms + [m])[..|ms|] == ms;
    }
  }

  lemma {:induction false} TurnedIsLegal(s: Setup, n: nat, r: Round)
    requires r.Sent? && WellSent(s, n, r) && Sendable(s.config.transcriptRepair, r.entering)
    ensures if r.turn.toolCalls == [] then Sendable(s.config.transcriptRepair, Turned(r)) && Paired(Turned(r))
            else Awaiting(s.config.transcriptRepair, Turned(r), r.turn.toolCalls)
  {
    RequestedIsPaired(s.config, r.entering, OfferedTools(s, n));
    AssembledCallsDistinct(s.world.driver(n).attempt(r.made).deltas);
    TurnRecorded(s.config.transcriptRepair, r.request.messages, r.turn);
  }

  /** Both exits of tool execution leave a paired transcript. */
  lemma {:induction false} ToolsRunIsLegal(s: Setup, r: nat, ms: seq<Message>, calls: seq<ToolCall>,
                                           decisions: seq<Decision>)
    requires Awaiting(s.config.transcriptRepair, ms, calls)
    ensures Paired(ToolsRun(s, r, ms, calls, decisions))
    ensures Sendable(s.config.transcriptRepair, ToolsRun(s, r, ms, calls, decisions))
  {
    if HooksPass(s, r, calls) {
      RoundIsPaired(s.config.transcriptRepair, ms, calls, Outcomes(s, r, calls, decisions));
    } else {
      AbortIsPaired(s.config.transcriptRepair, ms, calls);
    }
  }

  lemma {:induction false} NextIsSendable(s: Setup, n: nat, before: Round, decisions: seq<Decision>,
                                          batch: seq<Message>)
    requires before.Sent? && WellSent(s, n, before) && Sendable(s.config.transcriptRepair, before.entering)
    requires QueuedBatch(batch)
    ensures Sendable(s.config.transcriptRepair,
      CarriedOn(s, n + 1, Turned(before), before.turn.toolCalls, decisions) + batch)
  {
    TurnedIsLegal(s, n, before);
    CarriedOnIsSendable(s, n + 1, Turned(before), before.turn.toolCalls, decisions, batch);
  }

  lemma {:induction false} CarriedOnIsSendable(s: Setup, n: nat, ms: seq<Message>, calls: seq<ToolCall>,
                                               decisions: seq<Decision>, batch: seq<Message>)
    requires QueuedBatch(batch)
    requires if calls == [] then Sendable(s.config.transcriptRepair, ms)
             else Awaiting(s.config.transcriptRepair, ms, calls)
    ensures Sendable(s.config.transcriptRepair, CarriedOn(s, n, ms, calls, decisions) + batch)
  {
    if calls != [] { ToolsRunIsLegal(s, n, ms, calls, decisions); }
    QueueIsPaired(s.config.transcriptRepair, CarriedOn(s, n, ms, calls, decisions), batch);
  }

  ghost predicate SendableAt(s: Setup, log: seq<Round>, k: nat)
    requires k < |log|
  {
    Sendable(s.config.transcriptRepair, log[k].entering)
  }

  lemma {:induction false} FirstIsSendable(s: Setup, log: seq<Round>)
    requires ValidSetup(s) && log != [] && Chain(s, log)
    ensures SendableAt(s, log, 0)
  {
    assert LinkedAt(s, log, 0);
    QueueIsPaired(s.config.transcriptRepair, s.prompt, log[0].batch);
  }

  lemma {:induction false} FollowingIsSendable(s: Setup, log: seq<Round>, k: nat)
    requires k + 1 < |log| && Chain(s, log) && SendableAt(s, log, k)
    ensures SendableAt(s, log, k + 1)
  {
    assert LinkedAt(s, log, k) && LinkedAt(s, log, k + 1);
    NextIsSendable(s, k, log[k], log[k + 1].decisions, log[k + 1].batch);
  }

  /** Every round of every run starts from a transcript the engine can send. */
  lemma {:induction false} EnteringIsSendable(s: Setup, log: seq<Round>, k: nat)
    requires ValidSetup(s) && Chain(s, log) && k < |log|
    ensures SendableAt(s, log, k)
  {
    FirstIsSendable(s, log);
    for n := 0 to k
      invariant SendableAt(s, log, n)
    {
      FollowingIsSendable(s, log, n);
    }
  }

  lemma {:induction false} ReadyToSend(s: Setup, log: seq<Round>, n: nat, requests: seq<Request>, made: seq<nat>)
    requires Kept(s, log, requests, made) && |log| == n + 1 && log[n].Open?
    ensures Paired(Requested(s.config, log[n].entering, OfferedTools(s, n))) && |made| == n
  {
    EnteringIsSendable(s, log, n);
    RequestedIsPaired(s.config, log[n].entering, OfferedTools(s, n));
  }

  // ----- how a run ends -----

  function Said(turn: Message): seq<Message> {
    if HasOutput(turn) then [turn] else []
  }

  /** An error, if any, and the transcript reported with it. */
  datatype Ending = Ending(err: Option<RunError>, messages: seq<Message>)

  /** How round `n` ends as far as its turn is concerned: recorded, or failed on the way there. */
  function TurnEnding(s: Setup, n: nat, r: Round): Ending {
    match r
    case Open(_, _, entering) =>
      var obstacle := Obstacle(s, n, entering);
      Ending(obstacle, if obstacle == Some(RoundHookFailed) then Requested(s.config, entering, OfferedTools(s, n))
        else entering)
    case Sent(_, _, _, request, _, turn) =>
      if !Succeeded(s, n, r) then Ending(Some(DriverFailed), request.messages + Said(turn))
      else Ending(if s.world.turnHookFails(n + 1) then Some(TurnHookFailed) else None, Turned(r))
  }

  /** How the run ends when round `n` is its last and no calls are executed behind it. */
  function RoundEnding(s: Setup, n: nat, r: Round): Ending {
    var ending := TurnEnding(s, n, r);
    if ending.err.Some? || r.Open? then ending
    else if r.turn.toolCalls == [] then
      ending.(err := if s.world.finishHookFails(n + 1) then Some(FinishHookFailed) else None)
    else ending.(err := if n + 1 >= s.config.maxRounds then Some(MaxRoundsExceeded) else None)
  }

  /** How the run ends when the calls of round `n` are executed and that fails. */
  function ToolsEnding(s: Setup, n: nat, r: Round, decided: seq<Decision>): Ending
    requires r.Sent?
  {
    var calls := r.turn.toolCalls;
    Ending(ToolError(s, n + 1, calls, decided), ToolsRun(s, n + 1, Turned(r), calls, decided))
  }

  predicate ToolExit(err: Option<RunError>) {
    err == Some(StartHookFailed) || err == Some(ToolFailed)
  }

  /** The run is over, or waits for its executor; `r` is its last round `n`, `decided` the decisions of the last
      execution. */
  ghost predicate Ended(s: Setup, n: nat, r: Round, ending: Ending, decided: seq<Decision>) {
    if ToolExit(ending.err) then Recorded(s, n, r) && r.turn.toolCalls != [] && ending == ToolsEnding(s, n, r, decided)
    else ending == RoundEnding(s, n, r)
  }

  ghost predicate EndsWith(s: Setup, log: seq<Round>, ending: Ending, decided: seq<Decision>) {
    log != [] && Ended(s, |log| - 1, log[|log| - 1], ending, decided)
  }

  /** What a response tells of the run: the transcript with which it ended, the usage of every attempt ever made, and
      whether calls are pending. */
  datatype Report = Report(ending: Ending, usage: Usage, toolCalls: seq<ToolCall>, pending: bool)

  ghost predicate Truthful(s: Setup, log: seq<Round>, decided: seq<Decision>, attempts: seq<Charge>,
    report: Report) {
    && EndsWith(s, log, report.ending, decided) && Booked(report.usage, attempts)
    && (report.ending.err.None? ==> report.toolCalls == PendingCalls(log))
    && (report.pending <==> report.ending.err.None? && report.toolCalls != [])
  }

  /** A turn that failed ends the run, and that is what is reported. */
  lemma {:induction false} FailedTurnEnds(s: Setup, log: seq<Round>, n: nat, report: Report, decided: seq<Decision>,
                                          attempts: seq<Charge>)
    requires |log| == n + 1 && report.ending == TurnEnding(s, n, log[n]) && report.ending.err.Some?
    requires Booked(report.usage, attempts) && !report.pending
    ensures Truthful(s, log, decided, attempts, report) && !ToolExit(report.ending.err)
  {}

  lemma {:induction false} LastRound(s: Setup, log: seq<Round>, n: nat)
    requires ValidSetup(s) && Chain(s, log) && n < |log|
    ensures WellSent(s, n, log[n]) && Sendable(s.config.transcriptRepair, log[n].entering)
  {
    assert LinkedAt(s, log, n);
    EnteringIsSendable(s, log, n);
  }

  /** The run ended in an answer, or in one of the two failing exits of tool execution. */
  predicate GoesOn(r: Round, err: Option<RunError>) {
    ToolExit(err) || err == Some(FinishHookFailed) || (err.None? && r.Sent? && r.turn.toolCalls == [])
  }

  lemma {:induction false} RoundEndsPaired(s: Setup, n: nat, r: Round, ending: Ending, decided: seq<Decision>)
    requires Ended(s, n, r, ending, decided) && GoesOn(r, ending.err) && WellSent(s, n, r)
    requires Sendable(s.config.transcriptRepair, r.entering)
    ensures Paired(ending.messages)
  {
    TurnedIsLegal(s, n, r);
    if ToolExit(ending.err) { ToolsRunIsLegal(s, n + 1, Turned(r), r.turn.toolCalls, decided); }
  }

  /** Then the transcript is one with which the conversation can go on. */
  lemma {:induction false} EndsPaired(s: Setup, log: seq<Round>, n: nat, ending: Ending, decided: seq<Decision>)
    requires ValidSetup(s) && Chain(s, log) && |log| == n + 1 && Ended(s, n, log[n], ending, decided)
    requires GoesOn(log[n], ending.err)
    ensures Paired(ending.messages)
  {
    LastRound(s, log, n);
    RoundEndsPaired(s, n, log[n], ending, decided);
  }

  predicate LetsGoOn(log: seq<Round>, err: Option<RunError>) {
    log != [] && GoesOn(log[|log| - 1], err)
  }

  // ----- the caller's part -----

  /** Round `k` followed an answer, not executed calls. */
  predicate FollowsAnswer(log: seq<Round>, k: nat)
    requires 1 <= k < |log|
  {
    log[k - 1].Sent? && log[k - 1].turn.toolCalls == []
  }

  /** An automatic run executes everything without asking. */
  predicate Automatic(s: Setup) {
    s.config.autoToolCalls && s.config.withTools
  }

  /** The decisions with which the calls before each round are executed. */
  function Deciding(s: Setup, decisions: nat -> seq<Decision>): nat -> seq<Decision> {
    (k: nat) => if Automatic(s) then [] else decisions(k)
  }

  /** Calls before round `k` were executed with the decisions `f(k)`. */
  ghost predicate DecidedBy(log: seq<Round>, f: nat -> seq<Decision>) {
    forall k {:trigger FollowsAnswer(log, k)} :: 1 <= k < |log| ==> FollowsAnswer(log, k) || log[k].decisions == f(k)
  }

  /** Rounds up to the last one of `log` are as they were, and every later one followed an answer. */
  ghost predicate Extends(log: seq<Round>, next: seq<Round>) {
    && 1 <= |log| <= |next|
    && next[..|log| - 1] == log[..|log| - 1]
    && next[|log| - 1].decisions == log[|log| - 1].decisions && next[|log| - 1].batch == log[|log| - 1].batch
    && (forall k {:trigger FollowsAnswer(next, k)} :: |log| <= k < |next| ==> FollowsAnswer(next, k))
  }

  lemma {:induction false} ExtendsFurther(log: seq<Round>, mid: seq<Round>, r: Round, next: seq<Round>)
    requires |mid| == |log| && Extends(log, mid) && mid[|log| - 1].Sent? && mid[|log| - 1].turn.toolCalls == []
    requires Extends(mid + [r], next)
    ensures Extends(log, next)
  {
    var n, more := |log| - 1, mid + [r];
    assert more[..|mid|] == mid && next[..|mid|] == mid;
    assert next[n] == next[..|mid|][n] == mid[n];
    assert next[..n] == next[..|mid|][..n] == log[..n];
    forall k | |log| <= k < |next| ensures FollowsAnswer(next, k) {
      if k > |log| { assert FollowsAnswer(next, k); }
    }
  }

  lemma {:induction false} DecidedByExtends(log: seq<Round>, next: seq<Round>, f: nat -> seq<Decision>)
    requires DecidedBy(log, f) && Extends(log, next)
    ensures DecidedBy(next, f)
  {
    forall k | 1 <= k < |next| ensures FollowsAnswer(next, k) || next[k].decisions == f(k) {
      if k < |log| {
        assert next[k - 1] == next[..|log| - 1][k - 1] == log[k - 1];
        assert k < |log| - 1 ==> next[k] == next[..|log| - 1][k];
        assert FollowsAnswer(log, k) == FollowsAnswer(next, k);
      }
    }
  }

  /** Executing the calls of the last round of `log` with `decisions` started a further round, or none. */
  ghost predicate Resumed(log: seq<Round>, next: seq<Round>, decisions: seq<Decision>) {
    next == log || (|log| < |next| && next[|log|].decisions == decisions && Extends(log + [next[|log|]], next))
  }

  lemma {:induction false} ResumedByExtending(log: seq<Round>, r: Round, next: seq<Round>, decisions: seq<Decision>)
    requires r.decisions == decisions && Extends(log + [r], next)
    ensures Resumed(log, next, decisions) && |log| < |next|
  {
    assert (log + [r])[..|log|] == log;
    assert Extends(log + [next[|log|]], next);
  }

  /** No calls have been executed yet. */
  ghost predicate NoneDecided(log: seq<Round>) {
    forall k {:trigger FollowsAnswer(log, k)} :: 1 <= k < |log| ==> FollowsAnswer(log, k)
  }

  lemma {:induction false} NoneDecidedYet(first: seq<Round>, log: seq<Round>)
    requires |first| == 1 && Extends(first, log)
    ensures NoneDecided(log)
  {}

  lemma {:induction false} NoneDecidedFits(log: seq<Round>, f: nat -> seq<Decision>)
    requires NoneDecided(log)
    ensures DecidedBy(log, f)
  {}

  lemma {:induction false} DecidedByResumed(log: seq<Round>, next: seq<Round>, f: nat -> seq<Decision>)
    requires DecidedBy(log, f) && Resumed(log, next, f(|log|))
    ensures DecidedBy(next, f)
  {
    if next != log {
      var more := log + [next[|log|]];
      forall k | 1 <= k < |more| ensures FollowsAnswer(more, k) || more[k].decisions == f(k) {
        if k < |log| { assert FollowsAnswer(log, k) == FollowsAnswer(more, k); }
      }
      DecidedByExtends(more, next, f);
    }
  }

  /** Failing tool execution ends the run. */
  lemma {:induction false} FailedToolsEnd(s: Setup, log: seq<Round>, n: nat, ending: Ending, decided: seq<Decision>)
    requires |log| == n + 1 && Recorded(s, n, log[n]) && PendingCalls(log) != []
    requires ending == ToolsEnding(s, n, log[n], decided) && ending.err.Some?
    ensures EndsWith(s, log, ending, decided)
  {}

  /** Successful tool execution leads to the next round. */
  lemma {:induction false} ToolsLeadOn(s: Setup, log: seq<Round>, n: nat, batch: seq<Message>, decisions: seq<Decision>)
    requires |log| == n >= 1 && Recorded(s, n - 1, log[n - 1]) && PendingCalls(log) != []
    requires ToolError(s, n, PendingCalls(log), decisions).None?
    ensures Continues(s, n, log[n - 1], decisions, batch,
      ToolsRun(s, n, Turned(log[n - 1]), PendingCalls(log), decisions) + batch)
  {}

  /** Queued turns behind an answer lead to the next round. */
  lemma {:induction false} AnswerLeadsOn(s: Setup, log: seq<Round>, n: nat, batch: seq<Message>)
    requires |log| == n >= 1 && Recorded(s, n - 1, log[n - 1]) && PendingCalls(log) == []
    requires s.config.autoToolCalls && batch != []
    ensures Continues(s, n, log[n - 1], [], batch, Turned(log[n - 1]) + batch)
  {}

  lemma {:induction false} SameRound(s: Setup, a: seq<Round>, b: seq<Round>, k: nat)
    requires k < |a| == |b| && LinkedAt(s, a, k) && LinkedAt(s, b, k) && (k > 0 ==> a[k - 1] == b[k - 1])
    requires a[k].decisions == b[k].decisions && a[k].batch == b[k].batch && a[k].Sent? == b[k].Sent?
    ensures a[k] == b[k]
  {
    if a[k].Sent? { Retry.MakesIsUnique(s.config.retry, s.world.driver(k), a[k].made, b[k].made); }
  }

  /** Prompt, decisions, queued turns and the outside determine a run: same inputs, same log. */
  lemma {:induction false} RunsAreDetermined(s: Setup, a: seq<Round>, b: seq<Round>)
    requires Chain(s, a) && Chain(s, b) && |a| == |b|
    requires forall i :: 0 <= i < |a| ==>
      a[i].decisions == b[i].decisions && a[i].batch == b[i].batch && a[i].Sent? == b[i].Sent?
    ensures a == b
  {
    for k := 0 to |a|
      invariant forall i :: 0 <= i < k ==> a[i] == b[i]
    {
      assert LinkedAt(s, a, k) && LinkedAt(s, b, k);
      SameRound(s, a, b, k);
    }
  }
}
