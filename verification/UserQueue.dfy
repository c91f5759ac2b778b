/** The bounded FIFO of user turns that producers fill while a run is under way. */
module UserQueue {
  import opened Transcript
  import opened Tokens

  predicate HasProtocolFields(m: Message) {
    || m.toolCalls != [] || m.toolCallId != "" || m.isError || m.reasoning != ""
    || HasProviderReasoning(m.providerReasoning) || m.injection.Some?
  }

  /** A turn a queue may hold: nothing in it can forge an assistant, tool or injection entry. */
  predicate QueuedTurn(m: Message) {
    && m.role.User? && m.origin.Turn? && m.toolCalls == [] && m.toolCallId == "" && !m.isError
    && m.reasoning == "" && !HasProviderReasoning(m.providerReasoning) && m.injection.None?
  }

  datatype EnqueueError = Invalid | BadContent | Full

  class UserMessageQueue {
    const capacity: int
    var messages: seq<Message>
    /** Every message accepted so far, and every message drained so far, in order. */
    ghost var accepted: seq<Message>
    ghost var drained: seq<Message>

    ghost predicate Valid()
      reads this
    {
      && 0 < capacity && |messages| <= capacity
      && accepted == drained + messages
      && forall i :: 0 <= i < |accepted| ==> QueuedTurn(accepted[i])
    }

    constructor (capacity: int)
      requires capacity > 0
      ensures Valid() && this.capacity == capacity && messages == [] && accepted == []
    {
      this.capacity := capacity;
      messages, accepted, drained := [], [], [];
    }

    /** `contentOk` is the outcome of validating the message's content. */
    method Enqueue(m: Message, contentOk: bool) returns (r: Option<EnqueueError>)
      requires Valid()
      modifies this
      ensures Valid() && drained == old(drained)
      ensures r == if !m.role.User? || HasProtocolFields(m) then Some(Invalid)
                   else if !contentOk then Some(BadContent)
                   else if |old(messages)| >= capacity then Some(Full) else None
      ensures accepted == old(accepted) + if r.None? then [m.(origin := Turn)] else []
      ensures r.None? <==> QueuedTurn(m.(origin := Turn)) && contentOk && |old(messages)| < capacity
    {
      if !m.role.User? || HasProtocolFields(m) {
        return Some(Invalid);
      }
      if !contentOk {
        return Some(BadContent);
      }
      if |messages| >= capacity {
        return Some(Full);
      }
      messages := messages + [m.(origin := Turn)];
      accepted := accepted + [m.(origin := Turn)];
      r := None;
    }

    method Drain() returns (batch: seq<Message>)
      requires Valid()
      modifies this
      ensures Valid() && messages == [] && accepted == old(accepted)
      ensures drained == old(drained) + batch == accepted
      ensures forall i :: 0 <= i < |batch| ==> QueuedTurn(batch[i])
    {
      batch := messages;
      assert forall i :: 0 <= i < |batch| ==> accepted[|drained| + i] == batch[i];
      messages := [];
      drained := drained + batch;
    }
  }

  /** NewUserMessageQueue: a capacity that is not positive is an error. */
  method NewUserMessageQueue(capacity: int) returns (q: Option<UserMessageQueue>)
    ensures q.Some? <==> capacity > 0
    ensures q.Some? ==> fresh(q.value) && q.value.Valid() && q.value.messages == []
  {
    if capacity <= 0 {
      return None;
    }
    var queue := new UserMessageQueue(capacity);
    q := Some(queue);
  }
}
