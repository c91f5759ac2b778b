/** Whole runs: the engine's promise to its caller, whatever the driver, the tools, the hooks, the producers and the
    caller's own decisions do. */
module Engine {
  import opened Transcript
  import opened UserQueue
  import opened ToolRound
  import opened RunSpec
  import opened RunTheorems
  import opened RunLoop

  /** The response names exactly the calls of the last turn, and comes with an executor if there are any. */
  ghost predicate Pends(state: RunState, resp: Response)
    reads state
  {
    && state.log != [] && var last := state.log[|state.log| - 1];
      last.Sent? && resp.toolCalls == last.turn.toolCalls && (resp.executor.Some? <==> resp.toolCalls != [])
  }

  /** Every response the engine ever gives tells of a legal run, and how it ended. */
  lemma {:induction false} ReportIsLegal(state: RunState, resp: Response, err: Option<RunError>)
    requires state.Reported(resp, err)
    ensures LegalRun(state.setup, state.log, state.driver.requests)
    ensures LegalEnding(state.setup, state.log, Ending(err, resp.messages), state.decided)
    ensures LetsGoOn(state.log, err) ==> Paired(resp.messages)
    ensures err.None? ==> Pends(state, resp)
  {
    RunIsLegal(state.setup, state.log, state.driver.requests, state.driver.made, Ending(err, resp.messages),
               state.decided);
  }

  /** A whole run. Automatic mode loops until the model answers; in manual mode the caller executes up to `steps` times,
      deciding on the calls before round k with `decisions(k)`, and may stop at any point.

      The driver was sent exactly the requests of the run's log, all of them legal, and every attempt it made is
      billed; the log leads from the prompt through every turn, every recorded result and injection, and exactly the
      turns drained from the queue, in order; the response reports the transcript with which that log ends. */
  method Run(setup: Setup, queue: UserMessageQueue, decisions: nat -> seq<Decision>, steps: nat)
    returns (state: RunState, resp: Response, err: Option<RunError>)
    requires ValidSetup(setup) && queue.Valid()
    modifies queue
    ensures fresh(state) && state.setup == setup && state.queue == queue && state.base == old(queue.drained)
    ensures state.Reported(resp, err) && state.onError.fired == if err.Some? then 1 else 0
    ensures AsDecided(setup, state.log, decisions, err, state.decided)
    ensures setup.config.autoToolCalls && setup.config.withTools ==> resp.executor.None?
    ensures err.None? ==> Pends(state, resp)
    ensures LegalRun(setup, state.log, state.driver.requests)
    ensures LegalEnding(setup, state.log, Ending(err, resp.messages), state.decided)
    ensures LetsGoOn(state.log, err) ==> Paired(resp.messages)
  {
    state, resp, err := Begin(setup, queue);
    NoneDecidedFits(state.log, Deciding(setup, decisions));
    state, resp, err := Drive(state, resp, err, decisions, steps);
    DecisionsAreGiven(setup, state.log, decisions, err, state.decided);
    ReportIsLegal(state, resp, err);
  }
}
