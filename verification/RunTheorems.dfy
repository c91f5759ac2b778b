/** What every run does, told in terms of its inputs: what goes out, what comes back, what is added in between, and what
    is reported at the end. `LegalRun` and `LegalEnding` name none of the functions of RunSpec. */
module RunTheorems {
  import opened Transcript
  import opened Sequences
  import opened Compaction
  import opened Eviction
  import opened CompactionTheorems
  import opened Repair
  import opened RepairExact
  import opened Assembler
  import opened AssemblerTheorems
  import opened AssistantTurn
  import opened ToolRound
  import opened ToolVerdicts
  import opened RunSpec
  import Retry

  // ----- what a request is made of -----

  ghost predicate EvictsTo(ms: seq<Message>, kept: seq<Message>) {
    exists trace {:trigger Evictions(trace, ms, kept)} :: Evictions(trace, ms, kept)
  }

  ghost predicate EvictsAsNeeded(c: Config, ms: seq<Message>, kept: seq<Message>, tools: seq<Compaction.Tool>) {
    exists trace {:trigger Evictions(trace, ms, kept)} ::
      Evictions(trace, ms, kept) && Needed(trace, false, tools, c.counter, c.budget)
  }

  ghost predicate KeepsProtected(ms: seq<Message>, kept: seq<Message>) {
    exists pos {:trigger Embeds(ms, kept, pos)} :: Embeds(ms, kept, pos) && KeepsPins(ms, kept, pos)
  }

  /** A transcript over budget loses oldest units until it fits or nothing more can go, and never what must survive;
      under an additive counter it loses no unit in vain. Any other transcript stays as it is. */
  ghost predicate Trims(c: Config, ms: seq<Message>, kept: seq<Message>, tools: seq<Compaction.Tool>) {
    if c.budget <= 0 || WithinBudget(ms, tools, c.counter, c.budget) then kept == ms
    else
      && EvictsTo(ms, kept) && AtRest(kept, tools, c.counter, c.budget)
      && (InjectionsPlain(ms) ==> KeepsProtected(ms, kept))
      && (forall cost, toolCost {:trigger Additive(c.counter, cost, toolCost)} ::
            Additive(c.counter, cost, toolCost) ==> EvictsAsNeeded(c, ms, kept, tools))
  }

  /** The request is the trimmed transcript, or, with repair on, exactly what repair keeps of it. */
  ghost predicate MadeFrom(c: Config, ms: seq<Message>, tools: seq<Compaction.Tool>, sent: seq<Message>) {
    exists kept {:trigger Trims(c, ms, kept, tools)} ::
      Trims(c, ms, kept, tools) && if c.transcriptRepair then Mends(sent, kept) else sent == kept
  }

  ghost predicate LastPermitted(s: Setup, k: nat) {
    s.config.forceFinalAnswer && k + 1 == s.config.maxRounds
  }

  /** The forced final round and a run without tools offer none, every other round what is provided for it. */
  ghost predicate Offers(s: Setup, k: nat, tools: seq<Compaction.Tool>) {
    if !s.config.withTools || LastPermitted(s, k) then tools == [] else s.world.tools(k) == Some(tools)
  }

  /** Round `k` sends a paired transcript made from the one it starts with, and nothing stood in its way. */
  ghost predicate LegalRequest(s: Setup, k: nat, entering: seq<Message>, r: Request) {
    && Paired(r.messages) && Offers(s, k, r.tools) && MadeFrom(s.config, entering, r.tools, r.messages)
    && !s.world.rejected(k) && !s.world.roundHookFails(k)
  }

  lemma {:induction false} CompactedKeepsProtected(ms: seq<Message>, tools: seq<Compaction.Tool>, counter: Counter,
                                                   budget: int)
    requires CallsOnAssistants(ms) && InjectionsPlain(ms)
    ensures KeepsProtected(ms, Compact(ms, tools, counter, budget).ms)
  {
    var pos := CompactionKeepsPins(ms, tools, counter, budget);
  }

  lemma {:induction false} CompactedIsNeeded(c: Config, ms: seq<Message>, tools: seq<Compaction.Tool>,
                                             cost: Message -> int, toolCost: seq<Compaction.Tool> -> int)
    requires Additive(c.counter, cost, toolCost)
    ensures EvictsAsNeeded(c, ms, Compact(ms, tools, c.counter, c.budget).ms, tools)
  {
    var trace := CompactionIsNeeded(ms, tools, c.counter, c.budget, cost, toolCost);
  }

  lemma {:induction false} CompactedTrims(c: Config, ms: seq<Message>, tools: seq<Compaction.Tool>)
    requires CallsOnAssistants(ms) && c.budget > 0 && !WithinBudget(ms, tools, c.counter, c.budget)
    requires Compact(ms, tools, c.counter, c.budget).ok
    ensures Trims(c, ms, Compact(ms, tools, c.counter, c.budget).ms, tools)
  {
    var kept := Compact(ms, tools, c.counter, c.budget).ms;
    var trace := CompactionEvicts(ms, tools, c.counter, c.budget);
    CompactionSettles(ms, tools, c.counter, c.budget);
    if InjectionsPlain(ms) { CompactedKeepsProtected(ms, tools, c.counter, c.budget); }
    forall cost, toolCost | Additive(c.counter, cost, toolCost) ensures EvictsAsNeeded(c, ms, kept, tools) {
      CompactedIsNeeded(c, ms, tools, cost, toolCost);
    }
  }

  /** What budget enforcement leaves is trimmed. */
  lemma {:induction false} BudgetTrims(c: Config, ms: seq<Message>, tools: seq<Compaction.Tool>)
    requires CallsOnAssistants(ms) && Budgeted(c, ms, tools).ok
    ensures Trims(c, ms, Budgeted(c, ms, tools).ms, tools)
  {
    if c.budget > 0 && !WithinBudget(ms, tools, c.counter, c.budget) { CompactedTrims(c, ms, tools); }
  }

  lemma {:induction false} RequestIsMade(c: Config, ms: seq<Message>, tools: seq<Compaction.Tool>)
    requires CallsOnAssistants(ms) && Budgeted(c, ms, tools).ok
    ensures MadeFrom(c, ms, tools, Requested(c, ms, tools))
  {
    BudgetTrims(c, ms, tools);
    RepairMends(Budgeted(c, ms, tools).ms);
  }

  lemma {:induction false} OfferedIsRight(s: Setup, k: nat)
    requires !ToolsMissing(s, k)
    ensures Offers(s, k, OfferedTools(s, k))
  {}

  lemma {:induction false} RequestIsLegal(s: Setup, k: nat, ms: seq<Message>)
    requires Sendable(s.config.transcriptRepair, ms) && Obstacle(s, k, ms).None?
    ensures LegalRequest(s, k, ms, Request(Requested(s.config, ms, OfferedTools(s, k)), OfferedTools(s, k)))
  {
    RequestedIsPaired(s.config, ms, OfferedTools(s, k));
    RequestIsMade(s.config, ms, OfferedTools(s, k));
    OfferedIsRight(s, k);
  }

  // ----- what comes back -----

  /** Fewer calls than the cap, or as many at indices of their own: something a driver can see to. */
  ghost predicate Manageable(cs: seq<ToolCallDelta>) {
    var n := |Openings(cs, |cs|)|;
    Orderly(cs) && (n < MAX_TOOL_CALLS_PER_ROUND || (n == MAX_TOOL_CALLS_PER_ROUND && IndicesDiffer(cs)))
  }

  /** The turn says what the final attempt streamed; its calls are the streamed ones, each under its own name and with
      its own fragments. */
  ghost predicate LegalTurn(s: Setup, k: nat, made: nat, turn: Message) {
    var deltas := s.world.driver(k).attempt(made).deltas;
    && Retry.Makes(s.config.retry, s.world.driver(k), made) && Says(turn, deltas)
    && (Manageable(CallDeltas(deltas)) ==> AssembledFrom(CallDeltas(deltas), turn.toolCalls))
  }

  lemma {:induction false} ManageableHasRoom(cs: seq<ToolCallDelta>)
    requires Manageable(cs)
    ensures RoomUpTo(cs, |cs|)
  {
    if |Openings(cs, |cs|)| < MAX_TOOL_CALLS_PER_ROUND { RoomBelowCap(cs, |cs|); } else { OwnIndicesHaveRoom(cs); }
  }

  lemma {:induction false} TurnIsLegal(s: Setup, k: nat, r: Round)
    requires r.Sent? && WellSent(s, k, r)
    ensures LegalTurn(s, k, r.made, r.turn)
  {
    var deltas := s.world.driver(k).attempt(r.made).deltas;
    TurnSays(deltas);
    if Manageable(CallDeltas(deltas)) {
      ManageableHasRoom(CallDeltas(deltas));
      TurnRefinesFold(deltas);
    }
  }

  // ----- what tools add -----

  /** Everything the tools of a round inject, denied calls left out. */
  ghost function InjectedBy(s: Setup, r: nat, calls: seq<ToolCall>, decisions: seq<Decision>): seq<MessageInjection> {
    Concat(seq(|calls|, i requires 0 <= i < |calls| =>
      if Denied(decisions, calls[i].id) then [] else s.world.outcome(r, i).injections))
  }

  /** One answer for every call, in call order, and then the injections. */
  ghost predicate ToolsAdd(s: Setup, r: nat, calls: seq<ToolCall>, decisions: seq<Decision>, added: seq<Message>) {
    && |added| >= |calls|
    && (forall i {:trigger added[i]} :: 0 <= i < |calls| ==>
          Answers(added[i], calls[i], decisions, s.world.outcome(r, i)))
    && Injects(added[|calls|..], InjectedBy(s, r, calls, decisions))
  }

  ghost predicate StartTrouble(s: Setup, r: nat, calls: seq<ToolCall>) {
    exists i :: 0 <= i < |calls| && !s.world.startHookOk(r, i)
  }

  /** A hook failed, or something about the outcome of a call that was not denied. */
  ghost predicate RecordTrouble(s: Setup, r: nat, calls: seq<ToolCall>, decisions: seq<Decision>) {
    || (exists i {:trigger calls[i]} :: 0 <= i < |calls| &&
          (s.world.resultHookFails(r, i) || (!Denied(decisions, calls[i].id) && s.world.outcome(r, i).failed)))
    || var js := InjectedBy(s, r, calls, decisions);
      exists x {:trigger js[x]} :: 0 <= x < |js| && Usables(js)[x] && s.world.injectionHookFails(r, x)
  }

  lemma {:induction false} VerdictAt(s: Setup, r: nat, calls: seq<ToolCall>, decisions: seq<Decision>, i: nat)
    requires i < |calls|
    ensures var o, denied := OutcomeOf(s, r, calls, decisions, i), Denied(decisions, calls[i].id);
      && Answers(ToolMessage(calls[i], o), calls[i], decisions, s.world.outcome(r, i))
      && o.injections == (if denied then [] else s.world.outcome(r, i).injections)
      && (o.failed <==> !denied && s.world.outcome(r, i).failed)
  {
    VerdictStands(calls[i], decisions, s.world.outcome(r, i));
  }

  lemma {:induction false} InjectedByMeans(s: Setup, r: nat, calls: seq<ToolCall>, decisions: seq<Decision>)
    ensures Injections(Outcomes(s, r, calls, decisions)) == InjectedBy(s, r, calls, decisions)
  {
    var os := Outcomes(s, r, calls, decisions);
    InjectionsConcat(os);
    var parts := seq(|os|, i requires 0 <= i < |os| => os[i].injections);
    forall i | 0 <= i < |calls|
      ensures parts[i] == if Denied(decisions, calls[i].id) then [] else s.world.outcome(r, i).injections
    {
      VerdictAt(s, r, calls, decisions, i);
    }
    assert parts == seq(|calls|, i requires 0 <= i < |calls| =>
      if Denied(decisions, calls[i].id) then [] else s.world.outcome(r, i).injections);
  }

  ghost function Added(s: Setup, r: nat, calls: seq<ToolCall>, decisions: seq<Decision>): seq<Message> {
    var os := Outcomes(s, r, calls, decisions);
    ResultMessages(calls, os) + InjectionMessages(Injections(os))
  }

  lemma {:induction false} OutcomesAdd(s: Setup, r: nat, calls: seq<ToolCall>, decisions: seq<Decision>)
    ensures ToolsAdd(s, r, calls, decisions, Added(s, r, calls, decisions))
  {
    var os := Outcomes(s, r, calls, decisions);
    var added := Added(s, r, calls, decisions);
    forall i | 0 <= i < |calls| ensures Answers(added[i], calls[i], decisions, s.world.outcome(r, i)) {
      VerdictAt(s, r, calls, decisions, i);
      assert added[i] == ToolMessage(calls[i], OutcomeOf(s, r, calls, decisions, i));
    }
    InjectedByMeans(s, r, calls, decisions);
    InjectionsEnter(Injections(os));
    assert added[|calls|..] == InjectionMessages(Injections(os));
  }

  lemma {:induction false} ResultTroubleMeans(s: Setup, r: nat, calls: seq<ToolCall>, decisions: seq<Decision>)
    ensures ResultFails(s, r, Outcomes(s, r, calls, decisions)) <==>
      exists i {:trigger calls[i]} :: 0 <= i < |calls| &&
        (s.world.resultHookFails(r, i) || (!Denied(decisions, calls[i].id) && s.world.outcome(r, i).failed))
  {
    var os := Outcomes(s, r, calls, decisions);
    forall i | 0 <= i < |calls|
      ensures os[i].failed <==> !Denied(decisions, calls[i].id) && s.world.outcome(r, i).failed
    {
      VerdictAt(s, r, calls, decisions, i);
    }
    if ResultFails(s, r, os) {
      var i :| 0 <= i < |os| && (os[i].failed || s.world.resultHookFails(r, i));
      assert calls[i] == calls[i];
    }
  }

  lemma {:induction false} InjectionTroubleMeans(s: Setup, r: nat, js: seq<MessageInjection>)
    ensures InjectionFails(s, r, js) <==>
      exists x {:trigger js[x]} :: 0 <= x < |js| && Usables(js)[x] && s.world.injectionHookFails(r, x)
  {}

  /** Tool execution fails exactly for these reasons. */
  lemma {:induction false} TroubleMeans(s: Setup, r: nat, calls: seq<ToolCall>, decisions: seq<Decision>)
    ensures HooksPass(s, r, calls) <==> !StartTrouble(s, r, calls)
    ensures ToolError(s, r, calls, decisions) ==
      if StartTrouble(s, r, calls) then Some(StartHookFailed)
      else if RecordTrouble(s, r, calls, decisions) then Some(ToolFailed) else None
  {
    ResultTroubleMeans(s, r, calls, decisions);
    InjectedByMeans(s, r, calls, decisions);
    InjectionTroubleMeans(s, r, InjectedBy(s, r, calls, decisions));
  }

  lemma {:induction false} ToolsRunAdds(s: Setup, r: nat, ms: seq<Message>, calls: seq<ToolCall>,
                                        decisions: seq<Decision>)
    requires HooksPass(s, r, calls)
    ensures ToolsRun(s, r, ms, calls, decisions) == ms + Added(s, r, calls, decisions)
    ensures ToolsAdd(s, r, calls, decisions, Added(s, r, calls, decisions))
  {
    OutcomesAdd(s, r, calls, decisions);
  }

  /** The tools of denied calls do not matter: whatever they would have done, the run goes on in the same way. */
  lemma {:induction false} DeniedCallsDoNotRun(s: Setup, t: Setup, r: nat, ms: seq<Message>, calls: seq<ToolCall>,
                                               decisions: seq<Decision>)
    requires t == s.(world := s.world.(outcome := t.world.outcome))
    requires forall i {:trigger calls[i]} :: 0 <= i < |calls| ==>
      Denied(decisions, calls[i].id) || s.world.outcome(r, i) == t.world.outcome(r, i)
    ensures ToolsRun(s, r, ms, calls, decisions) == ToolsRun(t, r, ms, calls, decisions)
    ensures ToolError(s, r, calls, decisions) == ToolError(t, r, calls, decisions)
  {
    forall i | 0 <= i < |calls| ensures OutcomeOf(s, r, calls, decisions, i) == OutcomeOf(t, r, calls, decisions, i) {
      if Denied(decisions, calls[i].id) {
        DenialIgnoresTool(decisions, calls[i].id, s.world.outcome(r, i), t.world.outcome(r, i));
      }
    }
    assert Outcomes(s, r, calls, decisions) == Outcomes(t, r, calls, decisions);
    SameTrouble(s, t, r, calls, Outcomes(s, r, calls, decisions));
  }

  lemma {:induction false} SameTrouble(s: Setup, t: Setup, r: nat, calls: seq<ToolCall>, os: seq<Outcome>)
    requires t == s.(world := s.world.(outcome := t.world.outcome))
    ensures HooksPass(s, r, calls) <==> HooksPass(t, r, calls)
    ensures ResultFails(s, r, os) <==> ResultFails(t, r, os)
    ensures InjectionFails(s, r, Injections(os)) <==> InjectionFails(t, r, Injections(os))
  {}

  // ----- how one round leads to the next -----

  /** The turn came back whole and no hook on it failed. */
  ghost predicate CameBack(s: Setup, k: nat, r: Round) {
    r.Sent? && s.world.driver(k).attempt(r.made).failure.None? && !s.world.turnHookFails(k + 1)
  }

  /** What the tools of the round before add, in the course of which nothing failed. */
  ghost predicate ToolsLead(s: Setup, k: nat, sent: seq<Message>, turn: Message, next: Round) {
    && !StartTrouble(s, k, turn.toolCalls) && !RecordTrouble(s, k, turn.toolCalls, next.decisions)
    && exists added {:trigger ToolsAdd(s, k, turn.toolCalls, next.decisions, added)} ::
        ToolsAdd(s, k, turn.toolCalls, next.decisions, added) &&
        next.entering == sent + [turn] + added + next.batch
  }

  /** Round `k` starts from what round `k - 1` sent, the turn that came back, what its tools added, and the queued turns
      that came in; without calls it takes queued turns to go on. */
  ghost predicate LegalNext(s: Setup, k: nat, before: Round, next: Round)
    requires k >= 1
  {
    && CameBack(s, k - 1, before)
    && if before.turn.toolCalls != [] then ToolsLead(s, k, before.request.messages, before.turn, next)
      else
        && s.config.autoToolCalls && next.batch != []
        && next.entering == before.request.messages + [before.turn] + next.batch
  }

  lemma {:induction false} NextIsLegal(s: Setup, k: nat, before: Round, next: Round)
    requires k >= 1 && Continues(s, k, before, next.decisions, next.batch, next.entering)
    ensures LegalNext(s, k, before, next)
  {
    var calls := before.turn.toolCalls;
    if calls != [] {
      TroubleMeans(s, k, calls, next.decisions);
      ToolsRunAdds(s, k, Turned(before), calls, next.decisions);
    }
  }

  // ----- whole runs -----

  ghost predicate LegalSending(s: Setup, log: seq<Round>, requests: seq<Request>, k: nat)
    requires k < |requests|
  {
    && k < |log| && log[k].Sent? && LegalRequest(s, k, log[k].entering, requests[k])
    && log[k].request == requests[k] && LegalTurn(s, k, log[k].made, log[k].turn)
  }

  ghost predicate LegalStart(s: Setup, log: seq<Round>, k: nat)
    requires k < |log|
  {
    if k == 0 then log[0].entering == s.prompt + log[0].batch else LegalNext(s, k, log[k - 1], log[k])
  }

  ghost predicate LegalRun(s: Setup, log: seq<Round>, requests: seq<Request>) {
    && |requests| <= s.config.maxRounds
    && (forall k: nat {:trigger LegalSending(s, log, requests, k)} ::
          k < |requests| ==> LegalSending(s, log, requests, k))
    && (forall k: nat {:trigger LegalStart(s, log, k)} :: k < |log| ==> LegalStart(s, log, k))
  }

  /** Every request of every run is legal, every turn says what came back, and every round starts where the one before
      it ended. */
  lemma {:induction false} RunsAreLegal(s: Setup, log: seq<Round>, requests: seq<Request>, made: seq<nat>)
    requires Kept(s, log, requests, made)
    ensures LegalRun(s, log, requests)
  {
    forall k: nat | k < |requests| ensures LegalSending(s, log, requests, k) {
      assert LinkedAt(s, log, k) && log[k].Sent?;
      EnteringIsSendable(s, log, k);
      RequestIsLegal(s, k, log[k].entering);
      TurnIsLegal(s, k, log[k]);
    }
    forall k: nat | k < |log| ensures LegalStart(s, log, k) {
      assert LinkedAt(s, log, k);
      if k > 0 { NextIsLegal(s, k, log[k - 1], log[k]); }
    }
  }

  lemma {:induction false} GrowsOn(a: seq<Message>, b: seq<Message>, c: seq<Message>)
    requires a <= b && b <= c
    ensures a <= c
  {
    assert a == b[..|a|] == c[..|b|][..|a|] == c[..|a|];
  }

  lemma {:induction false} NextGrows(s: Setup, log: seq<Round>, requests: seq<Request>, k: nat)
    requires LegalRun(s, log, requests) && k + 1 < |log| <= |requests| + 1
    requires s.config.budget <= 0 && !s.config.transcriptRepair
    ensures log[k].entering <= log[k + 1].entering
  {
    assert LegalSending(s, log, requests, k) && LegalStart(s, log, k + 1);
    RoundGrows(s, k, log[k], log[k + 1]);
  }

  /** Without budget and repair the transcript only ever grows. */
  lemma {:induction false} TranscriptGrows(s: Setup, log: seq<Round>, requests: seq<Request>, i: nat, j: nat)
    requires LegalRun(s, log, requests) && i <= j < |log| <= |requests| + 1
    requires s.config.budget <= 0 && !s.config.transcriptRepair
    ensures s.prompt <= log[0].entering && log[i].entering <= log[j].entering
    decreases j
  {
    assert LegalStart(s, log, 0);
    if i < j {
      TranscriptGrows(s, log, requests, i, j - 1);
      NextGrows(s, log, requests, j - 1);
      GrowsOn(log[i].entering, log[j - 1].entering, log[j].entering);
    }
  }

  lemma {:induction false} RoundGrows(s: Setup, k: nat, r: Round, next: Round)
    requires s.config.budget <= 0 && !s.config.transcriptRepair
    requires r.Sent? && LegalRequest(s, k, r.entering, r.request) && LegalNext(s, k + 1, r, next)
    ensures r.entering <= next.entering
  {
    assert r.request.messages == r.entering;
  }

  // ----- how a run ends -----

  /** Everything a turn can say is empty. */
  ghost predicate Silent(turn: Message) {
    turn.text == "" && turn.reasoning == "" && turn.toolCalls == []
  }

  /** Why round `n` never went out, and what is reported then: the transcript it would have started from, or, behind
      the preparation, what would have been sent. */
  ghost predicate LegalObstacle(s: Setup, n: nat, r: Round, ending: Ending) {
    match ending.err
    case Some(ToolsUnavailable) =>
      ending.messages == r.entering && s.config.withTools && !LastPermitted(s, n) && s.world.tools(n).None?
    case Some(RequestRejected) => ending.messages == r.entering && s.world.rejected(n)
    case Some(BudgetFailed) =>
      ending.messages == r.entering && s.config.budget > 0 &&
      exists ms, tools {:trigger Count(s.config.counter, ms, tools)} :: Count(s.config.counter, ms, tools).None?
    case Some(RoundHookFailed) =>
      s.world.roundHookFails(n) && exists tools {:trigger Offers(s, n, tools)} ::
        Offers(s, n, tools) && MadeFrom(s.config, r.entering, tools, ending.messages)
    case _ => false
  }

  /** What is reported once the turn of round `n` is back. */
  ghost predicate LegalClose(s: Setup, n: nat, r: Round, ending: Ending, decided: seq<Decision>)
    requires r.Sent?
  {
    var sent, turn := r.request.messages, r.turn;
    match ending.err
    case None =>
      && CameBack(s, n, r) && ending.messages == sent + [turn]
      && if turn.toolCalls == [] then !s.world.finishHookFails(n + 1) else n + 1 < s.config.maxRounds
    case Some(DriverFailed) =>
      && s.world.driver(n).attempt(r.made).failure.Some?
      && ending.messages == sent + if Silent(turn) then [] else [turn]
    case Some(TurnHookFailed) => s.world.turnHookFails(n + 1) && ending.messages == sent + [turn]
    case Some(FinishHookFailed) =>
      CameBack(s, n, r) && turn.toolCalls == [] && s.world.finishHookFails(n + 1) && ending.messages == sent + [turn]
    case Some(MaxRoundsExceeded) =>
      CameBack(s, n, r) && turn.toolCalls != [] && n + 1 >= s.config.maxRounds && ending.messages == sent + [turn]
    case Some(StartHookFailed) =>
      && CameBack(s, n, r) && StartTrouble(s, n + 1, turn.toolCalls)
      && ending.messages == sent + [turn.(toolCalls := [])]
    case Some(ToolFailed) =>
      && CameBack(s, n, r) && !StartTrouble(s, n + 1, turn.toolCalls)
      && RecordTrouble(s, n + 1, turn.toolCalls, decided)
      && exists added {:trigger ToolsAdd(s, n + 1, turn.toolCalls, decided, added)} ::
          ToolsAdd(s, n + 1, turn.toolCalls, decided, added) && ending.messages == sent + [turn] + added
    case _ => false
  }

  ghost predicate LegalEnding(s: Setup, log: seq<Round>, ending: Ending, decided: seq<Decision>) {
    log != [] &&
    var n, r := |log| - 1, log[|log| - 1];
    if r.Open? then LegalObstacle(s, n, r, ending) else LegalClose(s, n, r, ending, decided)
  }

  lemma {:induction false} CountingFailed(c: Config, ms: seq<Message>, tools: seq<Compaction.Tool>)
    requires !Budgeted(c, ms, tools).ok
    ensures c.budget > 0
    ensures exists xs, ts {:trigger Count(c.counter, xs, ts)} :: Count(c.counter, xs, ts).None?
  {
    if forall xs, ts {:trigger Count(c.counter, xs, ts)} :: Count(c.counter, xs, ts).Some? {
      CompactSucceeds(ms, tools, c.counter, c.budget);
    }
  }

  lemma {:induction false} PassSucceeds(ms: seq<Message>, estimate: int, any: bool, counter: Counter, budget: int)
    requires forall xs, ts {:trigger Count(counter, xs, ts)} :: Count(counter, xs, ts).Some?
    ensures RunPass(ms, estimate, any, counter, budget).ok
    decreases |ms|
  {
    if !PassDone(ms, estimate, any, budget) {
      var t := Count(counter, OldestUnit(ms), []).value;
      PassStep(ms, estimate, any, counter, budget, t);
      PassSucceeds(DropFirst(ms), estimate - t, true, counter, budget);
    }
  }

  lemma {:induction false} CompactSucceeds(ms: seq<Message>, tools: seq<Compaction.Tool>, counter: Counter, budget: int)
    requires forall xs, ts {:trigger Count(counter, xs, ts)} :: Count(counter, xs, ts).Some?
    ensures Compact(ms, tools, counter, budget).ok
    decreases |ms|
  {
    if |ms| > 1 {
      var count := Count(counter, ms, tools).value;
      PassSucceeds(ms, count, false, counter, budget);
      var pass := RunPass(ms, count, false, counter, budget);
      if |pass.ms| < |ms| { CompactSucceeds(pass.ms, tools, counter, budget); }
    }
  }

  lemma {:induction false} ObstacleIsLegal(s: Setup, n: nat, r: Round, ending: Ending)
    requires r.Open? && CallsOnAssistants(r.entering) && ending == TurnEnding(s, n, r) && ending.err.Some?
    ensures LegalObstacle(s, n, r, ending)
  {
    var tools := OfferedTools(s, n);
    if !ToolsMissing(s, n) && !s.world.rejected(n) {
      OfferedIsRight(s, n);
      if Budgeted(s.config, r.entering, tools).ok {
        RequestIsMade(s.config, r.entering, tools);
      } else {
        CountingFailed(s.config, r.entering, tools);
      }
    }
  }

  lemma {:induction false} ToolExitIsLegal(s: Setup, n: nat, r: Round, ending: Ending, decided: seq<Decision>)
    requires r.Sent? && Recorded(s, n, r) && r.turn.role.Assistant? && r.turn.toolCalls != []
    requires ending == ToolsEnding(s, n, r, decided) && ToolExit(ending.err)
    ensures LegalClose(s, n, r, ending, decided)
  {
    var calls := r.turn.toolCalls;
    TroubleMeans(s, n + 1, calls, decided);
    if HooksPass(s, n + 1, calls) {
      ToolsRunAdds(s, n + 1, Turned(r), calls, decided);
    } else {
      assert Turned(r)[..|Turned(r)| - 1] == r.request.messages;
    }
  }

  lemma {:induction false} TurnExitIsLegal(s: Setup, n: nat, r: Round, ending: Ending, decided: seq<Decision>)
    requires r.Sent? && r.turn.providerReasoning == "" && ending == RoundEnding(s, n, r)
    ensures LegalClose(s, n, r, ending, decided)
  {}

  /** What is reported is how the run ended, whatever the reason. */
  lemma {:induction false} EndingsAreLegal(s: Setup, log: seq<Round>, n: nat, ending: Ending, decided: seq<Decision>)
    requires ValidSetup(s) && Chain(s, log) && |log| == n + 1 && EndsWith(s, log, ending, decided)
    requires ending.err.None? ==> log[n].Sent?
    ensures LegalEnding(s, log, ending, decided)
  {
    var r := log[n];
    LastRound(s, log, n);
    if r.Sent? {
      TurnSays(s.world.driver(n).attempt(r.made).deltas);
      if ToolExit(ending.err) {
        ToolExitIsLegal(s, n, r, ending, decided);
      } else {
        TurnExitIsLegal(s, n, r, ending, decided);
      }
    } else {
      ObstacleIsLegal(s, n, r, ending);
    }
  }

  // ----- the caller's part -----

  /** What the caller decided on the calls before round `k`; an automatic run asks nobody. */
  function Given(s: Setup, decisions: nat -> seq<Decision>, k: nat): seq<Decision> {
    if s.config.autoToolCalls && s.config.withTools then [] else decisions(k)
  }

  ghost predicate DecidedAt(s: Setup, log: seq<Round>, decisions: nat -> seq<Decision>, k: nat)
    requires 1 <= k < |log|
  {
    log[k - 1].Sent? && log[k - 1].turn.toolCalls != [] ==> log[k].decisions == Given(s, decisions, k)
  }

  /** All calls were executed as the caller decided; `decided` are the decisions with which execution failed, if that is
      how the run ended. */
  ghost predicate AsDecided(s: Setup, log: seq<Round>, decisions: nat -> seq<Decision>, err: Option<RunError>,
                            decided: seq<Decision>) {
    && (forall k {:trigger DecidedAt(s, log, decisions, k)} :: 1 <= k < |log| ==> DecidedAt(s, log, decisions, k))
    && (err == Some(StartHookFailed) || err == Some(ToolFailed) ==> decided == Given(s, decisions, |log|))
  }

  lemma {:induction false} DecisionsAreGiven(s: Setup, log: seq<Round>, decisions: nat -> seq<Decision>,
                                             err: Option<RunError>, decided: seq<Decision>)
    requires DecidedBy(log, Deciding(s, decisions))
    requires ToolExit(err) ==> decided == Deciding(s, decisions)(|log|)
    ensures AsDecided(s, log, decisions, err, decided)
  {
    GivenIsDecided(s, decisions, |log|);
    forall k: nat | 1 <= k < |log| ensures DecidedAt(s, log, decisions, k) {
      assert FollowsAnswer(log, k) || log[k].decisions == Deciding(s, decisions)(k);
      GivenIsDecided(s, decisions, k);
    }
  }

  lemma {:induction false} GivenIsDecided(s: Setup, decisions: nat -> seq<Decision>, k: nat)
    ensures Deciding(s, decisions)(k) == Given(s, decisions, k)
  {
    var f := Deciding(s, decisions);
    if Automatic(s) {
      assert f(k) == [];
    } else {
      assert f(k) == decisions(k);
    }
  }

  /** What a run sends, what it adds, and what it leaves. */
  lemma {:induction false} RunIsLegal(s: Setup, log: seq<Round>, requests: seq<Request>, made: seq<nat>, ending: Ending,
                                      decided: seq<Decision>)
    requires Kept(s, log, requests, made) && EndsWith(s, log, ending, decided)
    requires ending.err.None? ==> log[|log| - 1].Sent?
    ensures LegalRun(s, log, requests) && LegalEnding(s, log, ending, decided)
    ensures LetsGoOn(log, ending.err) ==> Paired(ending.messages)
  {
    RunsAreLegal(s, log, requests, made);
    EndingsAreLegal(s, log, |log| - 1, ending, decided);
    if LetsGoOn(log, ending.err) { EndsPaired(s, log, |log| - 1, ending, decided); }
  }
}
