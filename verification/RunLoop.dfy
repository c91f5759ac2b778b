/** The run state machine: rounds, single-use executors, injections and queued user turns, proved to be
    a run in the sense of RunSpec. Everything the engine calls out to is a parameter, so the contracts hold
    for every driver, every hook, every tool and every producer. */
module RunLoop {
  import opened Transcript
  import opened Compaction
  import opened Repair
  import opened AssistantTurn
  import opened Usage
  import opened UserQueue
  import opened ToolRound
  import opened RunSpec
  import opened Drivers
  import Retry

  datatype Response = Response(messages: seq<Message>, usage: Usage, toolCalls: seq<ToolCall>,
    executor: Option<Executor>)

  function ReportOf(resp: Response, err: Option<RunError>): Report {
    Report(Ending(err, resp.messages), resp.usage, resp.toolCalls, resp.executor.Some?)
  }

  /** The OnError callback; a failure of its own is swallowed. */
  class ErrorHook {
    var fired: nat

    constructor ()
      ensures fired == 0
    {
      fired := 0;
    }

    method Fire()
      modifies this
      ensures fired == old(fired) + 1
    {
      fired := fired + 1;
    }
  }

  class RunState {
    const setup: Setup
    const queue: UserMessageQueue
    const driver: Driver
    const onError: ErrorHook
    var messages: seq<Message>
    var usage: Usage
    var injections: seq<MessageInjection>
    var round: nat
    /** How often the queue was offered a drain. */
    var drains: nat
    /** The rounds so far, what the queue had handed out before this run, and the decisions of the last execution. */
    ghost var log: seq<Round>
    ghost const base: seq<Message>
    ghost var decided: seq<Decision>

    /** The log is a run; the driver was sent exactly its requests, with exactly its attempts; the turns
        drained from the queue are, in order, exactly the ones that entered its rounds. */
    ghost predicate Consistent()
      reads this, queue, driver
    {
      && Journal(setup, log, driver.requests, driver.made, base, queue.drained)
      && queue.Valid() && driver.Serves(setup) && Attended(setup, log, round, queue.drained, queue.accepted)
    }

    /** A round is about to run. */
    ghost predicate Opened()
      reads this, queue, driver
    {
      Consistent() && AtStart(log, round, messages, usage, driver.attempts)
    }

    /** A turn has just been recorded. */
    ghost predicate Settled()
      reads this, queue, driver
    {
      Consistent() && AtTurn(setup, log, round, messages, usage, driver.attempts)
    }

    /** Every response tells the truth; an executor comes with it exactly when calls are pending, and is unused. */
    ghost predicate Reported(resp: Response, err: Option<RunError>)
      reads this, queue, driver, (if resp.executor.Some? then {resp.executor.value} else {})
    {
      && Consistent() && Truthful(setup, log, decided, driver.attempts, ReportOf(resp, err))
      && (err.None? ==> AtTurn(setup, log, round, messages, usage, driver.attempts))
      && (resp.executor.Some? ==> resp.executor.value.Pending(this, resp.toolCalls))
    }

    /** The rounds of `before` are as they were, up to what came of the last one. */
    ghost predicate Grew(before: seq<Round>)
      reads this
    {
      Extends(before, log)
    }

    constructor (setup: Setup, queue: UserMessageQueue)
      requires ValidSetup(setup) && queue.Valid()
      ensures Consistent() && this.setup == setup && this.queue == queue && fresh(driver) && fresh(onError)
      ensures base == queue.drained
      ensures log == [] && messages == setup.prompt && usage == NO_USAGE && Booked(usage, driver.attempts)
      ensures round == onError.fired == 0
    {
      this.setup, this.queue := setup, queue;
      messages, usage, injections, round, drains := setup.prompt, NO_USAGE, [], 0, 0;
      log, base, decided := [], queue.drained, [];
      driver := new Driver(setup.config.retry, setup.world.driver);
      onError := new ErrorHook();
      NothingSpent();
    }

    method EnforceBudget(tools: seq<Compaction.Tool>) returns (ok: bool)
      modifies this`messages
      ensures Pass(messages, ok) == Budgeted(setup.config, old(messages), tools)
    {
      var config := setup.config;
      if config.budget <= 0 {
        return true;
      }
      var counter := new TokenCounter(config.counter);
      var count := counter.CountTokens(messages, tools);
      if count.None? {
        return false;
      }
      if count.value <= config.budget {
        return true;
      }
      var event := new TokenLimitEvent(messages, tools, count.value, config.budget, counter);
      ok := event.DropOldestUnits();
      if !ok {
        return false;
      }
      var over := event.IsOverBudget();
      if over.None? {
        return false;
      }
      messages := event.messages;
    }

    /** Tools for the round about to run, and a transcript within budget. */
    method PrepareTools(withhold: bool) returns (tools: seq<Compaction.Tool>, err: Option<RunError>)
      requires setup.config.withTools ==> withhold == Withheld(setup, round + 1)
      modifies this`messages
      ensures err.None? ==>
        tools == OfferedTools(setup, round) && Pass(messages, true) == Budgeted(setup.config, old(messages), tools)
      ensures err.Some? ==>
        err == Obstacle(setup, round, old(messages)) && err != Some(RoundHookFailed) && messages == old(messages)
      ensures err.None? ==>
        Obstacle(setup, round, old(messages)) ==
          if setup.world.roundHookFails(round) then Some(RoundHookFailed) else None
    {
      tools := [];
      if setup.config.withTools && !withhold {
        var provided := setup.world.tools(round);
        if provided.None? {
          return [], Some(ToolsUnavailable);
        }
        tools := provided.value;
      }
      if setup.world.rejected(round) {
        return tools, Some(RequestRejected);
      }
      var ok := EnforceBudget(tools);
      err := if ok then None else Some(BudgetFailed);
    }

    /** Repair, then the hooks that run before the request. */
    method PrepareRound() returns (err: Option<RunError>)
      modifies this`messages
      ensures messages == if setup.config.transcriptRepair then Repaired(old(messages)) else old(messages)
      ensures err == if setup.world.roundHookFails(round) then Some(RoundHookFailed) else None
    {
      if setup.config.transcriptRepair {
        messages := RepairTranscript(messages);
      }
      err := if setup.world.roundHookFails(round) then Some(RoundHookFailed) else None;
    }

    /** Everything before the request of a round: what goes out is the budgeted, then repaired transcript. */
    method Prepare(withhold: bool) returns (tools: seq<Compaction.Tool>, err: Option<RunError>)
      requires setup.config.withTools ==> withhold == Withheld(setup, round + 1)
      modifies this`messages
      ensures err == Obstacle(setup, round, old(messages)) && (err.None? ==> tools == OfferedTools(setup, round))
      ensures messages == if err.None? || err == Some(RoundHookFailed)
                          then Requested(setup.config, old(messages), OfferedTools(setup, round)) else old(messages)
    {
      tools, err := PrepareTools(withhold);
      if err.None? {
        err := PrepareRound();
      }
    }

    /** Sends the request and assembles the deltas of the final attempt, and of no other, into a turn. */
    method StreamAssistant(tools: seq<Compaction.Tool>)
      returns (assistant: Message, spent: Usage, ok: bool, ghost n: nat)
      requires driver.Valid() && Paired(messages)
      modifies driver
      ensures driver.Valid() && driver.requests == old(driver.requests) + [Request(messages, tools)]
      ensures driver.made == old(driver.made) + [n]
      ensures var w := driver.behaviour(old(driver.calls));
        && Retry.Makes(driver.retry, w, n) && driver.attempts == old(driver.attempts) + Retry.Attempted(w, n)
        && Booked(spent, Retry.Attempted(w, n))
        && assistant == Assembled(w.attempt(n).deltas) && ok == w.attempt(n).failure.None?
    {
      var delivered;
      delivered, spent, ok, n := driver.Call(Request(messages, tools));
      assistant := Assemble(delivered);
    }

    /** Appends the turn and books it. */
    method RecordAssistant(assistant: Message, spent: Usage) returns (err: Option<RunError>)
      modifies this`messages, this`usage, this`round
      ensures messages == old(messages) + [assistant] && usage == AddUsage(old(usage), spent) && round == old(round) + 1
      ensures err == if setup.world.turnHookFails(round) then Some(TurnHookFailed) else None
      ensures old(Consistent()) ==> Consistent()
    {
      messages := messages + [assistant];
      usage := AddUsage(usage, spent);
      round := round + 1;
      err := if setup.world.turnHookFails(round) then Some(TurnHookFailed) else None;
    }

    /** Producers may enqueue at any time; only the drain makes it visible, so they act right before it. */
    method LetProducersAct()
      requires queue.Valid()
      modifies this`drains, queue
      ensures queue.Valid() && queue.drained == old(queue.drained) && old(queue.accepted) <= queue.accepted
    {
      var arriving := setup.world.arrivals(drains);
      drains := drains + 1;
      for i := 0 to |arriving|
        invariant queue.Valid() && queue.drained == old(queue.drained) && old(queue.accepted) <= queue.accepted
      {
        var _ := queue.Enqueue(arriving[i].message, arriving[i].contentOk);
      }
    }

    /** Moves a FIFO batch of user turns into the run, unless the run is at its cap. */
    method AcceptQueuedUserMessages() returns (any: bool, ghost batch: seq<Message>)
      requires queue.Valid()
      modifies this`messages, this`drains, queue
      ensures queue.Valid() && QueuedBatch(batch) && (any <==> batch != [])
      ensures messages == old(messages) + batch && queue.drained == old(queue.drained) + batch
      ensures if setup.config.hasQueue && round < setup.config.maxRounds then queue.drained == queue.accepted
        else batch == []
      ensures old(Consistent()) && batch == [] ==> Consistent()
    {
      LetProducersAct();
      if !setup.config.hasQueue || round >= setup.config.maxRounds {
        return false, [];
      }
      var drained := queue.Drain();
      messages := messages + drained;
      any, batch := drained != [], drained;
    }

    /** Every start hook fires before any call runs; `None` is a failing hook, with nothing having run. */
    method RunToolCalls(calls: seq<ToolCall>, decisions: seq<Decision>) returns (outcomes: Option<seq<Outcome>>)
      ensures outcomes ==
        if HooksPass(setup, round, calls) then Some(Outcomes(setup, round, calls, decisions)) else None
    {
      for i := 0 to |calls|
        invariant forall j :: 0 <= j < i ==> setup.world.startHookOk(round, j)
      {
        if !setup.world.startHookOk(round, i) {
          return None;
        }
      }
      outcomes := Some(Outcomes(setup, round, calls, decisions));
    }

    /** Results first, in call order; then the injections, in call order. A failing hook or outcome does not stop the
        recording. */
    method RecordToolOutcomes(calls: seq<ToolCall>, outcomes: seq<Outcome>) returns (err: Option<RunError>)
      requires |calls| == |outcomes|
      modifies this`messages, this`injections
      ensures messages == AfterRound(old(messages), calls, outcomes)
      ensures injections == old(injections) + Usable(Injections(outcomes))
      ensures err ==
        if ResultFails(setup, round, outcomes) || InjectionFails(setup, round, Injections(outcomes))
        then Some(ToolFailed) else None
    {
      var recorded, pending, failed := messages, [], false;
      for i := 0 to |outcomes|
        invariant recorded == messages + ResultMessages(calls, outcomes)[..i]
        invariant pending == Injections(outcomes[..i])
        invariant failed <==> exists j :: 0 <= j < i && (outcomes[j].failed || setup.world.resultHookFails(round, j))
      {
        assert outcomes[..i + 1][..i] == outcomes[..i];
        recorded := recorded + [ToolMessage(calls[i], outcomes[i])];
        pending := pending + outcomes[i].injections;
        failed := failed || setup.world.resultHookFails(round, i) || outcomes[i].failed;
      }
      assert outcomes[..|outcomes|] == outcomes;
      messages := recorded;
      var late := RecordInjections(pending);
      err := if failed || late then Some(ToolFailed) else None;
    }

    method RecordInjections(js: seq<MessageInjection>) returns (failed: bool)
      modifies this`messages, this`injections
      ensures messages == old(messages) + InjectionMessages(js) && injections == old(injections) + Usable(js)
      ensures failed <==> InjectionFails(setup, round, js)
    {
      var recorded, kept := messages, injections;
      failed := false;
      for i := 0 to |js|
        invariant recorded == old(messages) + InjectionMessages(js[..i]) && kept == old(injections) + Usable(js[..i])
        invariant failed <==>
          exists j :: 0 <= j < i && UsableInjection(js[j]) && setup.world.injectionHookFails(round, j)
      {
        assert js[..i + 1][..i] == js[..i];
        if !UsableInjection(js[i]) {
          continue;
        }
        recorded := recorded + [InjectionMessage(js[i])];
        kept := kept + [js[i]];
        failed := failed || setup.world.injectionHookFails(round, i);
      }
      assert js[..|js|] == js;
      messages, injections := recorded, kept;
    }

    /** Either every result and injection is recorded, or nothing ran and the calls are dropped. */
    method ExecuteTools(calls: seq<ToolCall>, decisions: seq<Decision>) returns (err: Option<RunError>)
      modifies this`messages, this`injections
      ensures messages == ToolsRun(setup, round, old(messages), calls, decisions)
      ensures err == ToolError(setup, round, calls, decisions)
      ensures injections == old(injections) +
        if HooksPass(setup, round, calls) then Usable(Injections(Outcomes(setup, round, calls, decisions))) else []
    {
      var outcomes := RunToolCalls(calls, decisions);
      if outcomes.None? {
        messages := WithoutCalls(messages);
        return Some(StartHookFailed);
      }
      err := RecordToolOutcomes(calls, outcomes.value);
    }

    /** One request, exactly the prepared transcript of the round, enters the log together with its attempts. */
    method SendRequest(tools: seq<Compaction.Tool>) returns (assistant: Message, spent: Usage, ok: bool)
      requires Consistent() && |log| == round + 1 && log[round].Open? && Booked(usage, driver.attempts)
      requires Obstacle(setup, round, log[round].entering).None? && tools == OfferedTools(setup, round)
      requires messages == Requested(setup.config, log[round].entering, tools)
      modifies this`log, driver
      ensures Consistent() && |log| == |old(log)| && Grew(old(log)) && log[round].Sent?
      ensures PendingCalls(log) == assistant.toolCalls
      ensures log[round] == Closed(old(log)[round], Request(messages, tools), log[round].made, assistant)
      ensures ok == Succeeded(setup, round, log[round]) && Booked(AddUsage(usage, spent), driver.attempts)
    {
      ReadyToSend(setup, log, round, driver.requests, driver.made);
      ghost var before, n := driver.attempts, 0;
      assistant, spent, ok, n := StreamAssistant(tools);
      LogSent(Closed(log[round], Request(messages, tools), n, assistant), old(driver.requests), old(driver.made));
      Retry.AttemptedEnds(setup.world.driver(round), n);
      AddUsageBooked(usage, spent, before, Retry.Attempted(setup.world.driver(round), n));
    }

    /** Enters into the log what the driver has just been sent and has answered. */
    ghost method LogSent(sent: Round, requests: seq<Request>, made: seq<nat>)
      requires Journal(setup, log, requests, made, base, queue.drained) && queue.Valid() && driver.Serves(setup)
      requires Attended(setup, log, round, queue.drained, queue.accepted)
      requires |log| == round + 1 && log[round].Open? && sent.Sent?
      requires sent == Closed(log[round], sent.request, sent.made, sent.turn)
      requires WellSent(setup, round, sent) && driver.requests == requests + [sent.request]
      requires driver.made == made + [sent.made]
      modifies this`log
      ensures Consistent() && log == old(log)[round := sent] && Grew(old(log))
      ensures PendingCalls(log) == sent.turn.toolCalls
    {
      CloseRound(setup, log, sent, requests, made);
      log := log[round := sent];
    }

    /** The driver failed: the response carries whatever it said, and every attempt is billed. */
    method ReportDriver(assistant: Message, spent: Usage) returns (resp: Response)
      requires Consistent() && |log| == round + 1 && log[round].Sent? && Booked(AddUsage(usage, spent), driver.attempts)
      requires log[round].turn == assistant && log[round].request.messages == messages
      requires !Succeeded(setup, round, log[round])
      ensures resp.executor.None?
      ensures Truthful(setup, log, decided, driver.attempts, ReportOf(resp, Some(DriverFailed)))
    {
      resp := Response(messages + Said(assistant), AddUsage(usage, spent), assistant.toolCalls, None);
      FailedTurnEnds(setup, log, round, ReportOf(resp, Some(DriverFailed)), decided, driver.attempts);
    }

    /** The turn is recorded, even if a hook on it fails. */
    method RecordTurn(assistant: Message, spent: Usage) returns (resp: Response, err: Option<RunError>)
      requires Consistent() && |log| == round + 1 && log[round].Sent? && Booked(AddUsage(usage, spent), driver.attempts)
      requires log[round].turn == assistant && log[round].request.messages == messages
      requires Succeeded(setup, round, log[round])
      modifies this`messages, this`usage, this`round
      ensures Consistent() && resp.executor.None? && !ToolExit(err)
      ensures err.Some? ==> Truthful(setup, log, decided, driver.attempts, ReportOf(resp, err))
      ensures err.None? ==> Settled() && resp == Response(messages, usage, PendingCalls(log), None)
    {
      ghost var told := Response(messages + [assistant], AddUsage(usage, spent), assistant.toolCalls, None);
      assert told.messages == Turned(log[round]);
      if setup.world.turnHookFails(round + 1) {
        FailedTurnEnds(setup, log, round, ReportOf(told, Some(TurnHookFailed)), decided, driver.attempts);
      } else {
        TurnSettles(setup, log, round, told.messages, told.usage, driver.attempts);
      }
      err := RecordAssistant(assistant, spent);
      resp := Response(messages, usage, assistant.toolCalls, None);
    }

    /** Records the turn that came back, or reports the failing driver with whatever it said. */
    method SettleTurn(assistant: Message, spent: Usage, ok: bool) returns (resp: Response, err: Option<RunError>)
      requires Consistent() && |log| == round + 1 && log[round].Sent? && Booked(AddUsage(usage, spent), driver.attempts)
      requires log[round].turn == assistant && log[round].request.messages == messages
      requires ok == Succeeded(setup, round, log[round])
      modifies this`messages, this`usage, this`round
      ensures Consistent() && resp.executor.None? && !ToolExit(err)
      ensures err.Some? ==> Truthful(setup, log, decided, driver.attempts, ReportOf(resp, err))
      ensures err.None? ==> Settled() && resp == Response(messages, usage, PendingCalls(log), None)
    {
      if ok {
        resp, err := RecordTurn(assistant, spent);
      } else {
        resp := ReportDriver(assistant, spent);
        err := Some(DriverFailed);
      }
    }

    /** Everything a round does up to and including the recorded turn. */
    method TakeTurn(withhold: bool) returns (resp: Response, err: Option<RunError>)
      requires Opened() && (setup.config.withTools ==> withhold == Withheld(setup, round + 1))
      modifies this`messages, this`usage, this`round, this`log, driver
      ensures Consistent() && |log| == |old(log)| && Grew(old(log)) && resp.executor.None? && !ToolExit(err)
      ensures err.Some? ==> Truthful(setup, log, decided, driver.attempts, ReportOf(resp, err))
      ensures err.None? ==> Settled() && resp == Response(messages, usage, PendingCalls(log), None)
    {
      var tools;
      tools, err := Prepare(withhold);
      if err.Some? {
        resp := Partial();
        FailedTurnEnds(setup, log, round, ReportOf(resp, err), decided, driver.attempts);
        return;
      }
      var assistant, spent, ok := SendRequest(tools);
      resp, err := SettleTurn(assistant, spent, ok);
    }

    /** Starts the round behind the log, from the transcript as it now is. */
    ghost method StartRound(decisions: seq<Decision>, batch: seq<Message>)
      requires Kept(setup, log, driver.requests, driver.made)
      requires |driver.requests| == |log| == round < setup.config.maxRounds
      requires driver.Serves(setup) && Booked(usage, driver.attempts)
      requires queue.Valid() && queue.drained == base + Entered(log) + batch && QueuedBatch(batch)
      requires setup.config.hasQueue && (setup.config.autoToolCalls || log != []) ==> queue.drained == queue.accepted
      requires if log == [] then messages == setup.prompt + batch
        else Continues(setup, round, log[round - 1], decisions, batch, messages)
      modifies this`log
      ensures Opened() && log == old(log) + [Open(decisions, batch, messages)]
    {
      var next := Open(decisions, batch, messages);
      JournalOpens(setup, log, next, driver.requests, driver.made, base, queue.drained);
      log := log + [next];
    }

    /** An automatic run takes up what is queued before its first round. */
    method EnterFirst()
      requires Consistent() && log == [] && round == 0 && messages == setup.prompt && Booked(usage, driver.attempts)
      modifies this`messages, this`drains, this`log, queue
      ensures Opened() && |log| == 1 && log[0].decisions == []
    {
      ghost var batch := [];
      if setup.config.autoToolCalls {
        var any;
        any, batch := AcceptQueuedUserMessages();
      }
      StartRound([], batch);
    }

    /** Behind an answer, queued user turns start a further round; without any, nothing changes. */
    method TakeUpQueued() returns (more: bool)
      requires Settled() && setup.config.autoToolCalls && PendingCalls(log) == []
      modifies this`messages, this`drains, this`log, queue
      ensures if more then
                Opened() && round < setup.config.maxRounds && |log| == |old(log)| + 1 && log[..round] == old(log)
              else Settled() && log == old(log) && messages == old(messages)
    {
      ghost var batch := [];
      more, batch := AcceptQueuedUserMessages();
      if more {
        AnswerLeadsOn(setup, log, round, batch);
        StartRound([], batch);
      } else {
        assert messages == old(messages) + [] == old(messages);
      }
    }

    /** The run ends with the recorded turn: an answer, pending calls, or pending calls at the cap. */
    method Conclude(done: Response) returns (resp: Response, err: Option<RunError>)
      requires Settled() && done == Response(messages, usage, PendingCalls(log), None)
      ensures Reported(resp, err) && !ToolExit(err) && (resp.executor.Some? ==> fresh(resp.executor.value))
    {
      resp, err := done, None;
      if done.toolCalls == [] {
        if setup.world.finishHookFails(round) {
          err := Some(FinishHookFailed);
        }
      } else if round >= setup.config.maxRounds {
        err := Some(MaxRoundsExceeded);
      } else {
        var executor := new Executor(this, done.toolCalls);
        resp := done.(executor := Some(executor));
      }
    }

    /** One round, and every further round that queued user turns call for. */
    method RunOne(withhold: bool) returns (resp: Response, err: Option<RunError>)
      requires Opened() && (setup.config.withTools ==> withhold == Withheld(setup, round + 1))
      modifies this`messages, this`usage, this`round, this`log, this`drains, queue, driver
      ensures Reported(resp, err) && Grew(old(log)) && !ToolExit(err)
      ensures resp.executor.Some? ==> fresh(resp.executor.value)
      decreases setup.config.maxRounds - round, 0
    {
      resp, err := TakeTurn(withhold);
      if err.Some? {
        return;
      }
      if resp.toolCalls == [] && setup.config.autoToolCalls {
        resp, err := AnswerOrGoOn(resp, old(log));
      } else {
        resp, err := Conclude(resp);
      }
    }

    /** Behind an answer: a further round if queued user turns came in, the end of the run otherwise. */
    method AnswerOrGoOn(done: Response, ghost before: seq<Round>) returns (resp: Response, err: Option<RunError>)
      requires Settled() && done == Response(messages, usage, PendingCalls(log), None) && done.toolCalls == []
      requires setup.config.autoToolCalls && |log| == |before| && Grew(before)
      modifies this`messages, this`usage, this`round, this`log, this`drains, queue, driver
      ensures Reported(resp, err) && Grew(before) && !ToolExit(err)
      ensures resp.executor.Some? ==> fresh(resp.executor.value)
      decreases setup.config.maxRounds - round, 2
    {
      var more := TakeUpQueued();
      if more {
        resp, err := GoOn(before);
      } else {
        resp, err := Conclude(done);
      }
    }

    /** The round that queued user turns lead to. */
    method GoOn(ghost before: seq<Round>) returns (resp: Response, err: Option<RunError>)
      requires Opened() && |log| == |before| + 1 && Extends(before, log[..round])
      requires log[round - 1].Sent? && log[round - 1].turn.toolCalls == []
      modifies this`messages, this`usage, this`round, this`log, this`drains, queue, driver
      ensures Reported(resp, err) && Grew(before) && !ToolExit(err)
      ensures resp.executor.Some? ==> fresh(resp.executor.value)
      decreases setup.config.maxRounds - round, 1
    {
      ghost var turned, next := log[..round], log[round];
      assert log == turned + [next];
      resp, err := RunOne(Withheld(setup, round + 1));
      ExtendsFurther(before, turned, next, log);
    }

    /** Executes the pending calls. Success starts the next round, with the turns queued meanwhile. */
    method ExecutePending(calls: seq<ToolCall>, decisions: seq<Decision>) returns (err: Option<RunError>)
      requires Settled() && round < setup.config.maxRounds && calls == PendingCalls(log) != []
      modifies this`messages, this`injections, this`drains, this`log, queue
      ensures Consistent() && Booked(usage, driver.attempts) && err == ToolError(setup, round, calls, decisions)
      ensures err.Some? ==> log == old(log) && EndsWith(setup, log, Ending(err, messages), decisions)
      ensures err.None? ==>
        Opened() && |log| == |old(log)| + 1 && log[..round] == old(log) && log[round].decisions == decisions
    {
      err := ExecuteTools(calls, decisions);
      if err.Some? {
        FailedToolsEnd(setup, log, round - 1, Ending(err, messages), decisions);
        return;
      }
      var _, batch := AcceptQueuedUserMessages();
      ToolsLeadOn(setup, log, round, batch, decisions);
      StartRound(decisions, batch);
    }

    /** Executes the pending calls and takes the next round. */
    method Proceed(calls: seq<ToolCall>, decisions: seq<Decision>) returns (resp: Response, err: Option<RunError>)
      requires Settled() && calls == PendingCalls(log) != []
      modifies this, queue, driver
      ensures Reported(resp, err) && Went(old(log), decisions) && (err.None? ==> |log| > |old(log)|)
      ensures ToolExit(err) ==> log == old(log) && decided == decisions
      ensures resp.executor.Some? ==> fresh(resp.executor.value)
    {
      if round >= setup.config.maxRounds {
        return Partial(), Some(MaxRoundsExceeded);
      }
      decided := decisions;
      err := ExecutePending(calls, decisions);
      if err.Some? {
        return Partial(), err;
      }
      resp, err := TakeNext(old(log), decisions);
    }

    /** The round that executed calls lead to. */
    method TakeNext(ghost before: seq<Round>, decisions: seq<Decision>) returns (resp: Response, err: Option<RunError>)
      requires Opened() && |log| == |before| + 1 && log[..round] == before && log[round].decisions == decisions
      modifies this`messages, this`usage, this`round, this`log, this`drains, queue, driver
      ensures Reported(resp, err) && Went(before, decisions) && |log| > |before| && !ToolExit(err)
      ensures resp.executor.Some? ==> fresh(resp.executor.value)
    {
      ghost var next := log[round];
      assert log == before + [next];
      resp, err := RunOne(Withheld(setup, round + 1));
      ResumedByExtending(before, next, log, decisions);
    }

    /** Every failure fires OnError, once. */
    method Continue(calls: seq<ToolCall>, decisions: seq<Decision>) returns (resp: Response, err: Option<RunError>)
      requires Settled() && calls == PendingCalls(log) != []
      modifies this, queue, driver, onError
      ensures Reported(resp, err) && Went(old(log), decisions) && (err.None? ==> |log| > |old(log)|)
      ensures ToolExit(err) ==> log == old(log) && decided == decisions
      ensures onError.fired == old(onError.fired) + (if err.Some? then 1 else 0)
      ensures resp.executor.Some? ==> fresh(resp.executor.value)
    {
      resp, err := Proceed(calls, decisions);
      if err.Some? {
        onError.Fire();
      }
    }

    /** Executing the calls of `before` with `decisions` led to the log as it is. */
    ghost predicate Went(before: seq<Round>, decisions: seq<Decision>)
      reads this
    {
      Resumed(before, log, decisions)
    }

    function Partial(): Response
      reads this
    {
      Response(messages, usage, [], None)
    }
  }

  class Executor {
    const state: RunState
    const calls: seq<ToolCall>
    var executed: bool

    constructor (state: RunState, calls: seq<ToolCall>)
      ensures this.state == state && this.calls == calls && !executed
    {
      this.state, this.calls, executed := state, calls, false;
    }

    ghost predicate Pending(s: RunState, pending: seq<ToolCall>)
      reads this
    {
      state == s && !executed && calls == pending
    }

    /** An executor that has not run belongs to a run waiting for exactly its calls. */
    ghost predicate Valid()
      reads this, state, state.queue, state.driver
    {
      !executed ==> state.Settled() && calls == PendingCalls(state.log) != []
    }

    /** Runs the tools once; a second call changes nothing and fires nothing. */
    method Execute(decisions: seq<Decision>) returns (resp: Option<Response>, err: Option<RunError>)
      requires Valid()
      modifies this, state, state.queue, state.driver, state.onError
      ensures executed
      ensures old(executed) ==>
        && err == Some(AlreadyExecuted) && resp == None
        && unchanged(state) && unchanged(state.queue) && unchanged(state.driver) && unchanged(state.onError)
      ensures !old(executed) ==>
        && resp.Some? && state.Reported(resp.value, err) && state.Went(old(state.log), decisions)
        && (err.None? ==> |state.log| > |old(state.log)|)
        && (ToolExit(err) ==> state.log == old(state.log) && state.decided == decisions)
        && state.onError.fired == old(state.onError.fired) + (if err.Some? then 1 else 0)
        && (resp.value.executor.Some? ==> fresh(resp.value.executor.value))
    {
      if executed {
        return None, Some(AlreadyExecuted);
      }
      executed := true;
      var response;
      response, err := state.Continue(calls, decisions);
      resp := Some(response);
    }
  }

  /** The first round of a run. */
  method Begin(setup: Setup, queue: UserMessageQueue) returns (state: RunState, resp: Response, err: Option<RunError>)
    requires ValidSetup(setup) && queue.Valid()
    modifies queue
    ensures fresh(state) && fresh(state.driver) && fresh(state.onError) && state.setup == setup && state.queue == queue
    ensures state.base == old(queue.drained) && state.Reported(resp, err) && NoneDecided(state.log)
    ensures state.onError.fired == (if err.Some? then 1 else 0) && !ToolExit(err)
    ensures resp.executor.Some? ==> fresh(resp.executor.value)
  {
    state := new RunState(setup, queue);
    state.EnterFirst();
    ghost var first := state.log;
    resp, err := state.RunOne(setup.config.withTools && Withheld(setup, 1));
    NoneDecidedYet(first, state.log);
    if err.Some? {
      state.onError.Fire();
    }
  }

  /** One turn of the loop: the pending calls are executed, with the caller's decisions on them unless the run is
      automatic. */
  method ExecuteNext(state: RunState, waiting: Response, ghost was: Option<RunError>, decisions: nat -> seq<Decision>)
    returns (resp: Response, err: Option<RunError>)
    requires waiting.executor.Some? && state.Reported(waiting, was)
    requires DecidedBy(state.log, Deciding(state.setup, decisions))
    modifies state, state.queue, state.driver, state.onError, waiting.executor.value
    ensures state.Reported(resp, err) && DecidedBy(state.log, Deciding(state.setup, decisions))
    ensures ToolExit(err) ==> state.decided == Deciding(state.setup, decisions)(|state.log|)
    ensures state.onError.fired == old(state.onError.fired) + (if err.Some? then 1 else 0)
    ensures was.None? && |state.log| >= |old(state.log)| && (err.None? ==> |state.log| > |old(state.log)|)
    ensures resp.executor.Some? ==> fresh(resp.executor.value)
  {
    var next;
    next, err := waiting.executor.value.Execute(if Automatic(state.setup) then [] else decisions(state.round));
    DecidedByResumed(old(state.log), state.log, Deciding(state.setup, decisions));
    resp := next.value;
  }

  /** The loop around the executors. */
  method Drive(run: RunState, first: Response, failed: Option<RunError>, decisions: nat -> seq<Decision>, steps: nat)
    returns (state: RunState, resp: Response, err: Option<RunError>)
    requires run.Reported(first, failed) && run.onError.fired == (if failed.Some? then 1 else 0)
    requires DecidedBy(run.log, Deciding(run.setup, decisions)) && !ToolExit(failed)
    modifies run, run.queue, run.driver, run.onError, (if first.executor.Some? then {first.executor.value} else {})
    ensures state == run && state.Reported(resp, err) && state.onError.fired == if err.Some? then 1 else 0
    ensures DecidedBy(state.log, Deciding(state.setup, decisions)) && (Automatic(state.setup) ==> resp.executor.None?)
    ensures ToolExit(err) ==> state.decided == Deciding(state.setup, decisions)(|state.log|)
  {
    state, resp, err := run, first, failed;
    var setup, step := run.setup, 0;
    while resp.executor.Some? && (Automatic(setup) || step < steps)
      invariant state.Reported(resp, err) && state.onError.fired == (if err.Some? then 1 else 0)
      invariant DecidedBy(state.log, Deciding(setup, decisions))
      invariant ToolExit(err) ==> state.decided == Deciding(setup, decisions)(|state.log|)
      invariant resp.executor.Some? ==> resp.executor == first.executor || fresh(resp.executor.value)
      decreases setup.config.maxRounds - |state.log|, resp.executor.Some?
    {
      resp, err := ExecuteNext(state, resp, err, decisions);
      step := step + 1;
    }
  }
}
