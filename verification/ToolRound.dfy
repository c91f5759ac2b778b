/** How a round's tool results and injections enter the transcript, on values. */
module ToolRound {
  import opened Transcript
  import opened UserQueue

  /** What executing one call yields; `failed` is a failing hook or injector, which aborts the run afterwards. */
  datatype Outcome = Outcome(text: string, isError: bool, images: seq<string>, injections: seq<MessageInjection>,
    failed: bool)

  datatype Decision = Decision(callId: string, deny: bool, denyResult: string)

  const DENIED := "tool call denied"

  /** The last decision for a pending call wins; decisions for other ids are ignored. */
  function DecisionFor(decisions: seq<Decision>, id: string): Option<Decision> {
    if decisions == [] then None
    else
      var last := decisions[|decisions| - 1];
      if last.callId == id then Some(last) else DecisionFor(decisions[..|decisions| - 1], id)
  }

  /** A denied call still has an outcome: an error result. */
  function Effective(decision: Option<Decision>, outcome: Outcome): Outcome {
    if decision.Some? && decision.value.deny
    then Outcome(if decision.value.denyResult != "" then decision.value.denyResult else DENIED, true, [], [], false)
    else outcome
  }

  function ToolMessage(call: ToolCall, o: Outcome): Message {
    Message(Tool, o.text, o.images, [], call.id, o.isError, "", "", Turn, None, NoHint)
  }

  /** One tool message per call, in call order. */
  function ResultMessages(calls: seq<ToolCall>, outcomes: seq<Outcome>): seq<Message>
    requires |calls| == |outcomes|
  {
    seq(|calls|, i requires 0 <= i < |calls| => ToolMessage(calls[i], outcomes[i]))
  }

  /** All injections of a round, in call order. */
  function Injections(outcomes: seq<Outcome>): seq<MessageInjection> {
    if outcomes == [] then []
    else Injections(outcomes[..|outcomes| - 1]) + outcomes[|outcomes| - 1].injections
  }

  predicate UsableInjection(j: MessageInjection) {
    j.role.User? || j.role.Assistant? || j.role.System?
  }

  function InjectionMessage(j: MessageInjection): Message {
    Message(j.role, j.content, [], [], "", false, "", "", Injected, Some(j), NoHint)
  }

  /** Injections with an unusable role are dropped. */
  function InjectionMessages(js: seq<MessageInjection>): seq<Message> {
    if js == [] then []
    else
      var last := js[|js| - 1];
      InjectionMessages(js[..|js| - 1]) + if UsableInjection(last) then [InjectionMessage(last)] else []
  }

  /** The audit trail: the injections that did enter the transcript. */
  function Usable(js: seq<MessageInjection>): seq<MessageInjection> {
    if js == [] then []
    else Usable(js[..|js| - 1]) + if UsableInjection(js[|js| - 1]) then [js[|js| - 1]] else []
  }

  /** The transcript after a completed tool round: every result before any injection. */
  function AfterRound(ms: seq<Message>, calls: seq<ToolCall>, outcomes: seq<Outcome>): seq<Message>
    requires |calls| == |outcomes|
  {
    ms + ResultMessages(calls, outcomes) + InjectionMessages(Injections(outcomes))
  }

  /** The transcript after an aborted one: the trailing assistant message keeps its text and loses its calls. */
  function WithoutCalls(ms: seq<Message>): seq<Message> {
    if ms == [] || !ms[|ms| - 1].role.Assistant? || ms[|ms| - 1].toolCalls == [] then ms
    else ms[..|ms| - 1] + [ms[|ms| - 1].(toolCalls := [])]
  }

  // ----- legality -----

  /** What the engine maintains between steps: pairing, unless repair will restore it before the next request. */
  ghost predicate Sendable(repair: bool, ms: seq<Message>) {
    CallsOnAssistants(ms) && (repair || (Paired(ms) && InjectionsPlain(ms)))
  }

  /** The transcript ends in an assistant turn whose calls are still to be answered. */
  ghost predicate Awaiting(repair: bool, ms: seq<Message>, calls: seq<ToolCall>) {
    && |ms| > 0 && IsHead(ms[|ms| - 1]) && ms[|ms| - 1].toolCalls == calls && !ms[|ms| - 1].origin.Injected?
    && Distinct(Ids(calls))
    && Paired(ms[..|ms| - 1]) && Sendable(repair, ms[..|ms| - 1])
  }

  lemma {:induction false} SendableConcat(repair: bool, a: seq<Message>, b: seq<Message>)
    requires Sendable(repair, a) && Paired(a) && Paired(b) && CallsOnAssistants(b) && InjectionsPlain(b)
    ensures Sendable(repair, a + b) && Paired(a + b)
  {
    PairedConcat(a, b);
  }

  lemma {:induction false} PlainPaired(ms: seq<Message>)
    requires forall i :: 0 <= i < |ms| ==> !ms[i].role.Tool? && ms[i].toolCalls == []
    ensures Paired(ms) && CallsOnAssistants(ms) && InjectionsPlain(ms)
  {}

  lemma {:induction false} ResultsAnswer(calls: seq<ToolCall>, outcomes: seq<Outcome>)
    requires |calls| == |outcomes| && Distinct(Ids(calls))
    ensures AnsweredBy(calls, ResultMessages(calls, outcomes))
  {
    assert ResultIds(ResultMessages(calls, outcomes)) == Ids(calls);
  }

  lemma {:induction false} InjectionMessagesPlain(js: seq<MessageInjection>)
    ensures forall i :: 0 <= i < |InjectionMessages(js)| ==>
      !InjectionMessages(js)[i].role.Tool? && InjectionMessages(js)[i].toolCalls == []
    decreases |js|
  {
    if js != [] { InjectionMessagesPlain(js[..|js| - 1]); }
  }

  lemma {:induction false} UnitLegal(head: Message, outcomes: seq<Outcome>)
    requires IsHead(head) && !head.origin.Injected? && Distinct(Ids(head.toolCalls)) && |head.toolCalls| == |outcomes|
    ensures var unit := [head] + ResultMessages(head.toolCalls, outcomes);
      Paired(unit) && CallsOnAssistants(unit) && InjectionsPlain(unit)
  {
    var results := ResultMessages(head.toolCalls, outcomes);
    ResultsAnswer(head.toolCalls, outcomes);
    PairedUnit(head, results);
    var unit := [head] + results;
    assert unit[0] == head && forall i :: 0 < i < |unit| ==> unit[i] == results[i - 1];
  }

  /** Every outcome of every call, denied or not, leaves a paired transcript behind. */
  lemma {:induction false} RoundIsPaired(repair: bool, ms: seq<Message>, calls: seq<ToolCall>, outcomes: seq<Outcome>)
    requires Awaiting(repair, ms, calls) && |calls| == |outcomes|
    ensures Paired(AfterRound(ms, calls, outcomes)) && Sendable(repair, AfterRound(ms, calls, outcomes))
  {
    var n := |ms| - 1;
    var unit := [ms[n]] + ResultMessages(calls, outcomes);
    var extra := InjectionMessages(Injections(outcomes));
    assert AfterRound(ms, calls, outcomes) == (ms[..n] + unit) + extra by {
      assert ms == ms[..n] + [ms[n]];
    }
    assert Sendable(repair, ms[..n] + unit) && Paired(ms[..n] + unit) by {
      UnitLegal(ms[n], outcomes);
      SendableConcat(repair, ms[..n], unit);
    }
    InjectionMessagesPlain(Injections(outcomes));
    PlainPaired(extra);
    SendableConcat(repair, ms[..n] + unit, extra);
  }

  /** So does giving up before anything ran. */
  lemma {:induction false} AbortIsPaired(repair: bool, ms: seq<Message>, calls: seq<ToolCall>)
    requires Awaiting(repair, ms, calls)
    ensures Paired(WithoutCalls(ms)) && Sendable(repair, WithoutCalls(ms))
  {
    var n := |ms| - 1;
    var last := [ms[n].(toolCalls := [])];
    PlainPaired(last);
    SendableConcat(repair, ms[..n], last);
  }

  /** Queued user turns join a paired transcript at its end. */
  lemma {:induction false} QueueIsPaired(repair: bool, ms: seq<Message>, batch: seq<Message>)
    requires Sendable(repair, ms) && forall i :: 0 <= i < |batch| ==> QueuedTurn(batch[i])
    ensures Sendable(repair, ms + batch)
    ensures Paired(ms) ==> Paired(ms + batch)
  {
    PlainPaired(batch);
    if Paired(ms) { SendableConcat(repair, ms, batch); }
  }
}
