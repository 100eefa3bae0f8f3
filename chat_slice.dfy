/**
 * The chat slice: the store that holds the chat state and one method per
 * reducer, per fulfilled / rejected case, and per thunk whose decisions are
 * made in the slice. Browser storage and the calls the slice makes into code
 * outside it live in a Host object.
 */
module ChatSlice {
  import opened ChatTypes
  import opened Reconciler
  import opened Lifecycle

  /** getChatModeBasedOnLastMessage: derives the chat mode from the message list; its rule is not part of this model. */
  type ModeRule = seq<Message> -> ChatMode

  /**
   * The page the widget runs in: its session-scoped and durable storage (used
   * directly by the termination thunks), and the log of calls the slice makes
   * into the storage helpers and the chat and notification services.
   */
  class Host {
    var sessionStorage: map<string, string>
    var localStorage: map<string, string>
    var outbox: seq<Effect>

    constructor (session: map<string, string>, durable: map<string, string>)
      ensures sessionStorage == session && localStorage == durable && outbox == []
    {
      sessionStorage := session;
      localStorage := durable;
      outbox := [];
    }
  }

  /** The store's chat slice: the current state value, which each action rewrites. */
  class ChatStore {
    var state: ChatState

    constructor ()
      ensures state == InitialState
    {
      state := InitialState;
    }

    // ---------------------------------------------------------------- reducers

    method ResetState()
      modifies this
      ensures state == InitialState
    {
      state := InitialState;
    }

    method ResetStateWithValue(chatId: string)
      modifies this
      ensures state == old(state).(chatId := Some(chatId))
    {
      state := state.(chatId := Some(chatId));
    }

    method SetChatId(chatId: string)
      modifies this
      ensures state == old(state).(chatId := Some(chatId))
    {
      state := state.(chatId := Some(chatId));
    }

    method AddMessage(msg: Message)
      modifies this
      ensures state == old(state).(messages := old(state.messages) + [msg])
    {
      state := state.(messages := state.messages + [msg]);
    }

    /** `storedChatId` is what getFromLocalStorage returns for the session chat-id key. */
    method SetIsChatOpen(isOpen: bool, storedChatId: Option<string>)
      modifies this
      ensures state == old(state).(chatId := storedChatId, isChatOpen := isOpen, newMessagesAmount := 0)
    {
      state := state.(chatId := storedChatId, isChatOpen := isOpen, newMessagesAmount := 0);
    }

    method ClearMessageQueue()
      modifies this
      ensures state == old(state).(messageQueue := [])
    {
      state := state.(messageQueue := []);
    }

    method SetFeedbackMessageGiven(given: bool)
      modifies this
      ensures state == old(state).(feedback := old(state.feedback).(isFeedbackMessageGiven := given))
    {
      state := state.(feedback := state.feedback.(isFeedbackMessageGiven := given));
    }

    /** Recording a rating also withdraws the feedback warning. */
    method SetFeedbackRatingGiven(given: bool)
      modifies this
      ensures state == old(state).(feedback := old(state.feedback).(isFeedbackRatingGiven := given, showFeedbackWarning := false))
    {
      state := state.(feedback := state.feedback.(isFeedbackRatingGiven := given));
      state := state.(feedback := state.feedback.(showFeedbackWarning := false));
    }

    method SetFeedbackWarning(show: bool)
      modifies this
      ensures state == old(state).(feedback := old(state.feedback).(showFeedbackWarning := show))
    {
      state := state.(feedback := state.feedback.(showFeedbackWarning := show));
    }

    method SetShowContactForm(show: bool)
      modifies this
      ensures state == old(state).(showContactForm := show)
    {
      state := state.(showContactForm := show);
    }

    method QueueMessage(msg: Message)
      modifies this
      ensures state == old(state).(messageQueue := old(state.messageQueue) + [msg])
    {
      state := state.(messageQueue := state.messageQueue + [msg]);
    }

    method ResetNewMessagesAmount()
      modifies this
      ensures state == old(state).(newMessagesAmount := 0)
    {
      state := state.(newMessagesAmount := 0);
    }

    /** Every displayed message with the payload's id becomes the payload; the count never changes. */
    method UpdateMessage(msg: Message)
      modifies this
      ensures state == old(state).(messages := ReplaceById(old(state.messages), msg))
      ensures |state.messages| == |old(state.messages)|
    {
      state := state.(messages := ReplaceById(state.messages, msg));
    }

    method SetIsFeedbackConfirmationShown(shown: bool)
      modifies this
      ensures state == old(state).(feedback := old(state.feedback).(isFeedbackConfirmationShown := shown))
    {
      state := state.(feedback := state.feedback.(isFeedbackConfirmationShown := shown));
    }

    /** Only the estimate's time is zeroed; whether it is active is kept. */
    method SetEstimatedWaitingTimeToZero()
      modifies this
      ensures state == old(state).(estimatedWaiting := old(state.estimatedWaiting).(time := 0))
    {
      state := state.(estimatedWaiting := state.estimatedWaiting.(time := 0));
    }

    method SetEmailAddress(mailAddress: string)
      modifies this
      ensures state == old(state).(endUserContacts := old(state.endUserContacts).(mailAddress := mailAddress))
    {
      state := state.(endUserContacts := state.endUserContacts.(mailAddress := mailAddress));
    }

    method SetPhoneNumber(phoneNr: string)
      modifies this
      ensures state == old(state).(endUserContacts := old(state.endUserContacts).(phoneNr := phoneNr))
    {
      state := state.(endUserContacts := state.endUserContacts.(phoneNr := phoneNr));
    }

    /** A missing chat leaves the state alone; otherwise its status and agent are copied. */
    method SetChat(payload: Option<Chat>)
      modifies this
      ensures payload.None? ==> state == old(state)
      ensures payload.Some? ==> state == old(state).(chatStatus := Some(payload.value.status),
                                                     customerSupportId := payload.value.customerSupportId)
    {
      if payload.Some? {
        state := state.(chatStatus := Some(payload.value.status));
        state := state.(customerSupportId := payload.value.customerSupportId);
      }
    }

    /**
     * Reconciles an incoming batch into the displayed list. When nothing is left
     * to append (a null or empty batch, or every incoming message claimed by a
     * match) the whole update is dropped, merges included. Otherwise the list
     * becomes the merged list followed by the leftovers, the last-read time is
     * `now`, the unread counter grows by the number appended and is persisted,
     * and the chat mode is derived from the new list.
     */
    method AddMessagesToDisplay(host: Host, payload: Option<seq<Message>>, now: string, find: Matcher, modeOf: ModeRule)
      modifies this, host`outbox
      ensures var r := Reconcile(old(state.messages), payload.GetOr([]), find);
        if r.leftover == [] then
          state == old(state) && host.outbox == old(host.outbox)
        else
          && state == old(state).(messages := r.list + r.leftover,
                                  lastReadMessageTimestamp := Some(now),
                                  newMessagesAmount := old(state.newMessagesAmount) + |r.leftover|,
                                  chatMode := modeOf(r.list + r.leftover))
          && host.outbox == old(host.outbox) + [PersistNewMessagesAmount(state.newMessagesAmount)]
      ensures payload.GetOr([]) == [] ==> state == old(state) && host.outbox == old(host.outbox)
      ensures |state.messages| >= |old(state.messages)|
    {
      var receivedMessages := payload.GetOr([]);
      if |receivedMessages| == 0 {
        NothingToReconcile(state.messages, find);
        return;
      }
      var newMessagesList, appended := MergeIncoming(state.messages, receivedMessages, find);
      if |newMessagesList| == |state.messages| {
        assert appended == [];
        return;
      }
      state := state.(messages := newMessagesList,
                      lastReadMessageTimestamp := Some(now),
                      newMessagesAmount := state.newMessagesAmount + |appended|);
      host.outbox := host.outbox + [PersistNewMessagesAmount(state.newMessagesAmount)];
      state := state.(chatMode := modeOf(state.messages));
    }

    /** Runs the event switch over the payload, in order. */
    method HandleStateChangingEventMessages(host: Host, payload: seq<Message>)
      modifies this, host`outbox
      ensures state == ApplyEvents(old(state), payload)
      ensures host.outbox == old(host.outbox) + ClearsFor(payload)
    {
      var i := 0;
      while i < |payload|
        invariant 0 <= i <= |payload|
        invariant state == ApplyEvents(old(state), payload[..i])
        invariant host.outbox == old(host.outbox) + ClearsFor(payload[..i])
      {
        var msg := payload[i];
        match msg.event {
          case Some(AskPermissionIgnored) =>
            state := state.(messages := ReplaceById(state.messages, msg));
          case Some(ContactInformation) =>
            state := state.(showContactForm := true);
            state := state.(contactMsgId := msg.id.GetOr(""));
          case Some(Answered) =>
            state := state.(chatStatus := Some(Ended));
            host.outbox := host.outbox + [ClearStateVariables];
          case Some(Terminated) =>
            host.outbox := host.outbox + [ClearStateVariables];
            state := state.(chatStatus := Some(Ended));
          case _ =>
        }
        assert payload[..i + 1][..i] == payload[..i];
        i := i + 1;
      }
      assert payload[..|payload|] == payload;
    }

    // ------------------------------------------------- fulfilled / rejected cases

    method InitChatPending(now: string)
      modifies this
      ensures state == old(state).(lastReadMessageTimestamp := Some(now), loading := true)
    {
      state := state.(lastReadMessageTimestamp := Some(now), loading := true);
    }

    /** A started chat is OPEN under the id the server gave it. */
    method InitChatFulfilled(chat: Chat)
      modifies this
      ensures state == old(state).(chatId := Some(chat.id), loading := false, chatStatus := Some(Open))
    {
      state := state.(chatId := Some(chat.id), loading := false, chatStatus := Some(Open));
    }

    method GetChatFulfilled(payload: Option<Chat>)
      modifies this
      ensures payload.None? ==> state == old(state)
      ensures payload.Some? ==> state == old(state).(chatStatus := Some(payload.value.status),
                                                     customerSupportId := payload.value.customerSupportId)
    {
      if payload.None? {
        return;
      }
      state := state.(chatStatus := Some(payload.value.status), customerSupportId := payload.value.customerSupportId);
    }

    /** A fetched list (even an empty one) replaces the displayed list; a null payload is ignored. */
    method GetChatMessagesFulfilled(payload: Option<seq<Message>>, now: string, modeOf: ModeRule)
      modifies this
      ensures payload.None? ==> state == old(state)
      ensures payload.Some? ==> state == old(state).(lastReadMessageTimestamp := Some(now),
                                                     messages := payload.value,
                                                     chatMode := modeOf(payload.value))
    {
      if payload.None? {
        return;
      }
      state := state.(lastReadMessageTimestamp := Some(now));
      state := state.(messages := payload.value);
      state := state.(chatMode := modeOf(state.messages));
    }

    /** `unescape` is the greeting's newline rewrite, whose text processing is not modelled. */
    method GetGreetingFulfilled(greeting: Greeting, now: string, unescape: string -> string)
      modifies this
      ensures !greeting.isActive ==> state == old(state)
      ensures greeting.isActive ==> state == old(state).(messages := old(state.messages) + [
        Message(id := None, chatId := None, content := Some(unescape(greeting.est)),
                event := Some(Named("greeting")), authorRole := None,
                authorTimestamp := Some(now), rating := None)])
    {
      if !greeting.isActive {
        return;
      }
      var msg := Message(id := None, chatId := None, content := Some(unescape(greeting.est)),
                         event := Some(Named("greeting")), authorRole := None,
                         authorTimestamp := Some(now), rating := None);
      state := state.(messages := state.messages + [msg]);
    }

    /** Ending succeeded: ENDED, both feedback flags cleared, stored variables and the previous chat id removed. */
    method EndChatFulfilled(host: Host)
      modifies this, host`outbox, host`localStorage
      ensures state == old(state).(chatStatus := Some(Ended),
                                   feedback := old(state.feedback).(isFeedbackMessageGiven := false,
                                                                    isFeedbackRatingGiven := false))
      ensures host.outbox == old(host.outbox) + [ClearStateVariables]
      ensures host.localStorage == old(host.localStorage) - {PreviousChatIdKey}
    {
      state := state.(chatStatus := Some(Ended));
      state := state.(feedback := state.feedback.(isFeedbackMessageGiven := false));
      state := state.(feedback := state.feedback.(isFeedbackRatingGiven := false));
      host.outbox := host.outbox + [ClearStateVariables];
      host.localStorage := host.localStorage - {PreviousChatIdKey};
    }

    /** Like EndChatFulfilled, except that the previous chat id stays stored for a resume. */
    method AddChatToTerminationQueueFulfilled(host: Host)
      modifies this, host`outbox
      ensures state == old(state).(chatStatus := Some(Ended),
                                   feedback := old(state.feedback).(isFeedbackMessageGiven := false,
                                                                    isFeedbackRatingGiven := false))
      ensures host.outbox == old(host.outbox) + [ClearStateVariables]
    {
      state := state.(chatStatus := Some(Ended));
      state := state.(feedback := state.feedback.(isFeedbackMessageGiven := false));
      state := state.(feedback := state.feedback.(isFeedbackRatingGiven := false));
      host.outbox := host.outbox + [ClearStateVariables];
    }

    /** `errorText` is the ERROR_MESSAGE constant; a failure overwrites any earlier error and sets no flag. */
    method SendChatNpmRatingRejected(errorText: string)
      modifies this
      ensures state == old(state).(errorMessage := errorText)
    {
      state := state.(errorMessage := errorText);
    }

    method SendFeedbackMessageRejected(errorText: string)
      modifies this
      ensures state == old(state).(errorMessage := errorText)
    {
      state := state.(errorMessage := errorText);
    }

    /** The estimate is replaced wholesale. */
    method GetEstimatedWaitingTimeFulfilled(estimate: EstimatedWaiting)
      modifies this
      ensures state == old(state).(estimatedWaiting := estimate)
    {
      state := state.(estimatedWaiting := estimate);
    }

    /**
     * Only a first entry with a non-empty external id redirects the chat: the
     * chat id becomes that external id and the redirected flag is raised.
     * Indexing an empty response throws, so the response must not be empty.
     */
    method GenerateForwardingRequestFulfilled(payload: seq<Chat>)
      requires |payload| > 0
      modifies this
      ensures Truthy(payload[0].externalId) ==>
        state == old(state).(chatId := payload[0].externalId, isChatRedirected := true)
      ensures !Truthy(payload[0].externalId) ==> state == old(state)
    {
      if Truthy(payload[0].externalId) {
        state := state.(chatId := payload[0].externalId);
        state := state.(isChatRedirected := true);
      }
    }

    // ---------------------------------------------------------------- thunks

    /** Messages are fetched only for a non-empty chat id; otherwise the thunk resolves with null. */
    method GetChatMessages(host: Host)
      modifies host`outbox
      ensures host.outbox == old(host.outbox) + (if Truthy(state.chatId) then [GetMessages(state.chatId.value)] else [])
    {
      if Truthy(state.chatId) {
        host.outbox := host.outbox + [GetMessages(state.chatId.value)];
      }
    }

    /** The rating is sent whenever the chat id is not null (an empty id is sent too). */
    method SendChatNpmRating(host: Host, npmRating: int)
      modifies host`outbox
      ensures host.outbox == old(host.outbox) + (if state.chatId.Some? then [NpmRatingRequest(state.chatId.value, npmRating)] else [])
    {
      if state.chatId.None? {
        return;
      }
      host.outbox := host.outbox + [NpmRatingRequest(state.chatId.value, npmRating)];
    }

    method SendFeedbackMessage(host: Host, userInput: string)
      modifies host`outbox
      ensures host.outbox == old(host.outbox) + (if state.chatId.Some? then [FeedbackRequest(state.chatId.value, userInput)] else [])
    {
      if state.chatId.None? {
        return;
      }
      host.outbox := host.outbox + [FeedbackRequest(state.chatId.value, userInput)];
    }

    /**
     * Ending a chat always resets the state; the CLIENT_LEFT notification is
     * sent only when the status read before the reset was not ENDED.
     */
    method EndChat(host: Host, now: string)
      modifies this, host`outbox
      ensures state == InitialState
      ensures host.outbox == old(host.outbox) +
        (if old(state.chatStatus) == Some(Ended) then [] else [EndChatRequest(old(state.chatId), ClientLeft, now)])
    {
      var chatStatus, chatId := state.chatStatus, state.chatId;
      ResetState();
      if chatStatus == Some(Ended) {
        return;
      }
      host.outbox := host.outbox + [EndChatRequest(chatId, ClientLeft, now)];
    }

    /**
     * Entering termination: the termination time goes to session storage and
     * the chat id ('' when null) to durable storage, the state is reset, and the
     * chat is queued for termination only when its id is non-empty. `now` is
     * the millisecond clock reading as text.
     */
    method AddChatToTerminationQueue(host: Host, now: string)
      modifies this, host
      ensures state == InitialState
      ensures host.sessionStorage == old(host.sessionStorage)[TerminationTimeKey := now]
      ensures host.localStorage == old(host.localStorage)[PreviousChatIdKey := old(state.chatId).GetOr("")]
      ensures host.outbox == old(host.outbox) +
        (if Truthy(old(state.chatId)) then [AddToTerminationQueue(old(state.chatId).value)] else [])
    {
      var chatId := state.chatId;
      host.sessionStorage := host.sessionStorage[TerminationTimeKey := now];
      host.localStorage := host.localStorage[PreviousChatIdKey := chatId.GetOr("")];
      ResetState();
      if Truthy(chatId) {
        host.outbox := host.outbox + [AddToTerminationQueue(chatId.value)];
      }
    }

    /**
     * Resuming after a reload. Unless the page was reloaded and the chat is
     * about to be terminated, nothing happens. Otherwise the stored previous
     * chat id (null when absent) goes to the session chat-id slot, the
     * termination time is removed, and a non-empty previous id becomes the chat
     * id again and is taken off the termination queue.
     */
    method RemoveChatFromTerminationQueue(host: Host, pageReloaded: bool, aboutToBeTerminated: bool)
      modifies this, host`sessionStorage, host`outbox
      ensures !(pageReloaded && aboutToBeTerminated) ==>
        state == old(state) && host.sessionStorage == old(host.sessionStorage) && host.outbox == old(host.outbox)
      ensures pageReloaded && aboutToBeTerminated ==>
        var previous := Lookup(host.localStorage, PreviousChatIdKey);
        && host.sessionStorage == old(host.sessionStorage) - {TerminationTimeKey}
        && state == (if Truthy(previous) then old(state).(chatId := previous) else old(state))
        && host.outbox == old(host.outbox) + [PersistSessionChatId(previous)] +
             (if Truthy(previous) then [RemoveFromTerminationQueue(previous.value)] else [])
    {
      if !pageReloaded || !aboutToBeTerminated {
        return;
      }
      var chatId := Lookup(host.localStorage, PreviousChatIdKey);
      host.outbox := host.outbox + [PersistSessionChatId(chatId)];
      host.sessionStorage := host.sessionStorage - {TerminationTimeKey};
      if Truthy(chatId) {
        ResetStateWithValue(chatId.value);
        host.outbox := host.outbox + [RemoveFromTerminationQueue(chatId.value)];
      }
    }
  }

  // ---------------------------------------------------------------- scenarios

  /**
   * Ending a chat twice in a row, each end followed by its fulfilled case:
   * at most one CLIENT_LEFT notification goes out, because the second call
   * finds the status ENDED.
   */
  method EndChatTwice(store: ChatStore, host: Host, firstTime: string, secondTime: string)
    modifies store, host
    ensures store.state == InitialState.(chatStatus := Some(Ended))
    ensures host.outbox == old(host.outbox) +
      (if old(store.state.chatStatus) == Some(Ended) then [] else [EndChatRequest(old(store.state.chatId), ClientLeft, firstTime)]) +
      [ClearStateVariables, ClearStateVariables]
    ensures PreviousChatIdKey !in host.localStorage
  {
    store.EndChat(host, firstTime);
    store.EndChatFulfilled(host);
    store.EndChat(host, secondTime);
    store.EndChatFulfilled(host);
  }

  /**
   * The termination hand-off across a reload: the chat enters termination,
   * the page reloads (a fresh store over the same storage), and the resume
   * check runs with both signals raised. The fresh store gets the prior chat
   * id back exactly when it was non-empty, the termination time is gone, and
   * the chat was queued and then taken off the queue.
   */
  method TerminationHandOffAcrossReload(store: ChatStore, host: Host, now: string) returns (reloaded: ChatStore)
    modifies store, host
    ensures fresh(reloaded)
    ensures var id := old(store.state.chatId);
      && reloaded.state == (if Truthy(id) then InitialState.(chatId := id) else InitialState)
      && TerminationTimeKey !in host.sessionStorage
      && Lookup(host.localStorage, PreviousChatIdKey) == Some(id.GetOr(""))
      && host.outbox == old(host.outbox) +
           (if Truthy(id)
            then [AddToTerminationQueue(id.value), ClearStateVariables, PersistSessionChatId(id), RemoveFromTerminationQueue(id.value)]
            else [ClearStateVariables, PersistSessionChatId(Some(""))])
  {
    store.AddChatToTerminationQueue(host, now);
    store.AddChatToTerminationQueueFulfilled(host);
    reloaded := new ChatStore();
    reloaded.RemoveChatFromTerminationQueue(host, true, true);
  }
}
