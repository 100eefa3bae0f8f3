/**
 * What `handleStateChangingEventMessages` does to the slice state, as a fold
 * of one event message at a time over the payload, and what that fold keeps.
 */
module Lifecycle {
  import opened ChatTypes
  import opened Reconciler

  /** ANSWERED and TERMINATED end the chat. */
  predicate EndsChat(msg: Message) {
    msg.event == Some(Answered) || msg.event == Some(Terminated)
  }

  predicate RequestsContact(msg: Message) {
    msg.event == Some(ContactInformation)
  }

  /** The event kinds the switch has a case for. */
  predicate ChangesState(msg: Message) {
    EndsChat(msg) || RequestsContact(msg) || msg.event == Some(AskPermissionIgnored)
  }

  /** One pass of the payload loop: the switch on the message's event kind. */
  function ApplyEvent(s: ChatState, msg: Message): (r: ChatState)
    ensures !ChangesState(msg) ==> r == s
    ensures r.chatStatus == if EndsChat(msg) then Some(Ended) else s.chatStatus
    ensures |r.messages| == |s.messages|
    ensures r == s.(messages := r.messages, showContactForm := r.showContactForm,
                    contactMsgId := r.contactMsgId, chatStatus := r.chatStatus)
  {
    match msg.event
    case Some(AskPermissionIgnored) => s.(messages := ReplaceById(s.messages, msg))
    case Some(ContactInformation) => s.(showContactForm := true, contactMsgId := msg.id.GetOr(""))
    case Some(Answered) => s.(chatStatus := Some(Ended))
    case Some(Terminated) => s.(chatStatus := Some(Ended))
    case _ => s
  }

  /** The whole `forEach`, in payload order. */
  function ApplyEvents(s: ChatState, events: seq<Message>): (r: ChatState)
    ensures r.chatStatus == s.chatStatus || r.chatStatus == Some(Ended)
    ensures s.showContactForm ==> r.showContactForm
  {
    if events == [] then s
    else ApplyEvent(ApplyEvents(s, events[..|events| - 1]), events[|events| - 1])
  }

  /** The storage clears the loop issues: one per ending event. */
  function ClearsFor(events: seq<Message>): (r: seq<Effect>)
    ensures |r| <= |events|
    ensures events != [] && EndsChat(events[|events| - 1]) ==> r != []
  {
    if events == [] then []
    else ClearsFor(events[..|events| - 1]) + (if EndsChat(events[|events| - 1]) then [ClearStateVariables] else [])
  }

  /**
   * The chat is ENDED after the loop exactly when some payload message is
   * ANSWERED or TERMINATED (whatever the status was before), and exactly then
   * are the stored state variables cleared; otherwise the status is untouched.
   */
  lemma {:induction false} EndedExactlyOnEndEvent(s: ChatState, events: seq<Message>)
    ensures ApplyEvents(s, events).chatStatus ==
      if exists i :: 0 <= i < |events| && EndsChat(events[i]) then Some(Ended) else s.chatStatus
    ensures ClearsFor(events) != [] <==> exists i :: 0 <= i < |events| && EndsChat(events[i])
    ensures forall e :: e in ClearsFor(events) ==> e == ClearStateVariables
  {
    if events != [] {
      var n := |events| - 1;
      var prefix := events[..n];
      EndedExactlyOnEndEvent(s, prefix);
      assert forall i :: 0 <= i < n ==> prefix[i] == events[i];
      if !EndsChat(events[n]) {
        if exists i :: 0 <= i < |events| && EndsChat(events[i]) {
          var i :| 0 <= i < |events| && EndsChat(events[i]);
          assert prefix[i] == events[i];
        }
      }
    }
  }

  /** Replacing ASK_PERMISSION_IGNORED messages never changes how many messages there are. */
  lemma {:induction false} EventsKeepMessageCount(s: ChatState, events: seq<Message>)
    ensures |ApplyEvents(s, events).messages| == |s.messages|
  {
    if events != [] {
      EventsKeepMessageCount(s, events[..|events| - 1]);
    }
  }

  /**
   * The contact form is shown after the loop when some payload message is
   * CONTACT_INFORMATION, and the remembered id is that of the last such message
   * ('' when it has none).
   */
  lemma {:induction false} LastContactRequestWins(s: ChatState, events: seq<Message>, k: nat)
    requires k < |events| && RequestsContact(events[k])
    requires forall j :: k < j < |events| ==> !RequestsContact(events[j])
    ensures ApplyEvents(s, events).showContactForm
    ensures ApplyEvents(s, events).contactMsgId == events[k].id.GetOr("")
  {
    var n := |events| - 1;
    if k < n {
      LastContactRequestWins(s, events[..n], k);
    }
  }

  /**
   * The loop touches only the message list, the contact form, the contact
   * message id and the chat status.
   */
  lemma {:induction false} EventsFrame(s: ChatState, events: seq<Message>)
    ensures var t := ApplyEvents(s, events);
      t == s.(messages := t.messages, showContactForm := t.showContactForm,
              contactMsgId := t.contactMsgId, chatStatus := t.chatStatus)
  {
    if events != [] {
      EventsFrame(s, events[..|events| - 1]);
    }
  }

  /** A payload with no event the switch handles changes nothing and clears nothing. */
  lemma {:induction false} OtherEventsChangeNothing(s: ChatState, events: seq<Message>)
    requires forall i :: 0 <= i < |events| ==> !ChangesState(events[i])
    ensures ApplyEvents(s, events) == s
    ensures ClearsFor(events) == []
  {
    if events != [] {
      var n := |events| - 1;
      assert forall i :: 0 <= i < n ==> events[..n][i] == events[i];
      OtherEventsChangeNothing(s, events[..n]);
      assert !ChangesState(events[n]);
    }
  }
}
