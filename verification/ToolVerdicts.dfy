/** What the caller's decisions mean for the transcript, and what a round of tools adds to it. */
module ToolVerdicts {
  import opened Transcript
  import opened Sequences
  import opened ToolRound

  /** The `j`-th decision is the last one about the call. */
  ghost predicate LastWord(decisions: seq<Decision>, id: string, j: nat) {
    && j < |decisions| && decisions[j].callId == id
    && forall k :: j < k < |decisions| ==> decisions[k].callId != id
  }

  ghost predicate Denied(decisions: seq<Decision>, id: string) {
    exists j: nat {:trigger LastWord(decisions, id, j)} :: LastWord(decisions, id, j) && decisions[j].deny
  }

  /** The call is answered in its own name: by an error if it was denied, with exactly what the tool said otherwise. */
  ghost predicate Answers(m: Message, call: ToolCall, decisions: seq<Decision>, said: Outcome) {
    && m.role.Tool? && m.toolCallId == call.id
    && (forall j: nat {:trigger LastWord(decisions, call.id, j)} ::
          LastWord(decisions, call.id, j) && decisions[j].deny ==>
            && m.isError && m.images == []
            && m.text == if decisions[j].denyResult != "" then decisions[j].denyResult else "tool call denied")
    && (!Denied(decisions, call.id) ==>
          m.text == said.text && m.images == said.images && m.isError == said.isError)
    && m.toolCalls == [] && m.reasoning == "" && m.providerReasoning == ""
    && m.origin.Turn? && m.injection.None? && m.cacheHint.NoHint?
  }

  /** The message an injection becomes. */
  ghost predicate Carries(m: Message, j: MessageInjection) {
    && m.role == j.role && m.text == j.content && m.origin.Injected? && m.injection == Some(j)
    && m.images == [] && m.toolCalls == [] && m.toolCallId == "" && !m.isError
    && m.reasoning == "" && m.providerReasoning == "" && m.cacheHint.NoHint?
  }

  ghost function Usables(js: seq<MessageInjection>): (keep: seq<bool>)
    ensures |keep| == |js|
  {
    seq(|js|, i requires 0 <= i < |js| => js[i].role.User? || js[i].role.Assistant? || js[i].role.System?)
  }

  /** The messages are, in order, those injections whose role is usable. */
  ghost predicate Injects(added: seq<Message>, js: seq<MessageInjection>) {
    exists pos {:trigger Lists(pos, Usables(js))} :: Lists(pos, Usables(js)) && |added| == |pos| &&
      forall a :: 0 <= a < |pos| ==> pos[a] < |js| && Carries(added[a], js[pos[a]])
  }

  // ----- decisions -----

  lemma {:induction false} LastWordUnique(decisions: seq<Decision>, id: string, j: nat, k: nat)
    requires LastWord(decisions, id, j) && LastWord(decisions, id, k)
    ensures j == k
  {}

  /** The decision in force is the last one about the call. */
  lemma {:induction false} DecisionMeans(decisions: seq<Decision>, id: string) returns (j: nat)
    ensures match DecisionFor(decisions, id)
      case None => forall k :: 0 <= k < |decisions| ==> decisions[k].callId != id
      case Some(d) => LastWord(decisions, id, j) && decisions[j] == d
    decreases |decisions|
  {
    j := 0;
    if decisions != [] {
      var n := |decisions| - 1;
      if decisions[n].callId == id {
        j := n;
      } else {
        j := DecisionMeans(decisions[..n], id);
      }
    }
  }

  lemma {:induction false} DenialMeans(decisions: seq<Decision>, id: string)
    ensures var d := DecisionFor(decisions, id);
      && (Denied(decisions, id) <==> d.Some? && d.value.deny)
      && forall j: nat {:trigger LastWord(decisions, id, j)} :: LastWord(decisions, id, j) ==> d == Some(decisions[j])
  {
    var k := DecisionMeans(decisions, id);
    forall j: nat | LastWord(decisions, id, j) ensures DecisionFor(decisions, id) == Some(decisions[j]) {
      if DecisionFor(decisions, id).Some? { LastWordUnique(decisions, id, j, k); }
    }
  }

  /** A denied call is answered by an error and injects nothing; any other by what the tool said. */
  lemma {:induction false} VerdictStands(call: ToolCall, decisions: seq<Decision>, said: Outcome)
    ensures var o := Effective(DecisionFor(decisions, call.id), said);
      && Answers(ToolMessage(call, o), call, decisions, said)
      && o.injections == (if Denied(decisions, call.id) then [] else said.injections)
      && (o.failed <==> !Denied(decisions, call.id) && said.failed)
  {
    DenialMeans(decisions, call.id);
  }

  /** What the tool of a denied call would have said makes no difference. */
  lemma {:induction false} DenialIgnoresTool(decisions: seq<Decision>, id: string, said: Outcome, other: Outcome)
    requires Denied(decisions, id)
    ensures Effective(DecisionFor(decisions, id), said) == Effective(DecisionFor(decisions, id), other)
  {
    DenialMeans(decisions, id);
  }

  // ----- injections -----

  lemma {:induction false} InjectionsConcat(outcomes: seq<Outcome>)
    ensures Injections(outcomes)
      == Concat(seq(|outcomes|, i requires 0 <= i < |outcomes| => outcomes[i].injections))
    decreases |outcomes|
  {
    if outcomes != [] {
      var n := |outcomes| - 1;
      var parts := seq(|outcomes|, i requires 0 <= i < |outcomes| => outcomes[i].injections);
      InjectionsConcat(outcomes[..n]);
      assert parts[..n] == seq(n, i requires 0 <= i < n => outcomes[..n][i].injections);
      ConcatLast(parts);
    }
  }

  function AllAsMessages(js: seq<MessageInjection>): seq<Message> {
    seq(|js|, i requires 0 <= i < |js| => InjectionMessage(js[i]))
  }

  lemma {:induction false} UsableSelected(js: seq<MessageInjection>)
    ensures Selects(InjectionMessages(js), AllAsMessages(js), Usables(js))
    decreases |js|
  {
    if js == [] {
      SelectsNothing<Message>();
      assert AllAsMessages(js) == [] && Usables(js) == [];
    } else {
      var n := |js| - 1;
      UsableSelected(js[..n]);
      SelectsSnoc(InjectionMessages(js[..n]), AllAsMessages(js[..n]), Usables(js[..n]), InjectionMessage(js[n]),
                  UsableInjection(js[n]));
      UsablesSnoc(js);
    }
  }

  lemma {:induction false} UsablesSnoc(js: seq<MessageInjection>)
    requires js != []
    ensures var n := |js| - 1;
      && AllAsMessages(js) == AllAsMessages(js[..n]) + [InjectionMessage(js[n])]
      && Usables(js) == Usables(js[..n]) + [UsableInjection(js[n])]
  {}

  lemma {:induction false} InjectsBy(pos: seq<nat>, added: seq<Message>, js: seq<MessageInjection>)
    requires Lists(pos, Usables(js)) && Picks(added, AllAsMessages(js), pos)
    ensures Injects(added, js)
  {}

  /** Exactly the usable injections enter, each as a message of its own, in order. */
  lemma {:induction false} InjectionsEnter(js: seq<MessageInjection>)
    ensures Injects(InjectionMessages(js), js)
  {
    UsableSelected(js);
    var pos := Selection(InjectionMessages(js), AllAsMessages(js), Usables(js));
    InjectsBy(pos, InjectionMessages(js), js);
  }

  lemma {:induction false} UsableSnoc(js: seq<MessageInjection>, j: MessageInjection)
    ensures Usable(js + [j]) == if UsableInjection(j) then Usable(js) + [j] else Usable(js)
    ensures Usables(js + [j]) == Usables(js) + [UsableInjection(j)]
  {
    assert (js + [j])[..|js|] == js;
  }

  /** The audit trail of the injections is exactly those that entered. */
  ghost predicate Audited(js: seq<MessageInjection>) {
    Selects(Usable(js), js, Usables(js))
  }

  lemma {:induction false} AuditNext(js: seq<MessageInjection>, j: MessageInjection)
    requires Audited(js)
    ensures Audited(js + [j])
  {
    SelectsSnoc(Usable(js), js, Usables(js), j, UsableInjection(j));
    UsableSnoc(js, j);
  }

  lemma {:induction false} AuditTrail(js: seq<MessageInjection>)
    ensures Audited(js)
    decreases |js|
  {
    if js == [] {
      SelectsNothing<MessageInjection>();
      assert Usables(js) == [];
    } else {
      AuditTrail(js[..|js| - 1]);
      AuditNext(js[..|js| - 1], js[|js| - 1]);
      assert js[..|js| - 1] + [js[|js| - 1]] == js;
    }
  }
}
