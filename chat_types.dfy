/**
 * The values the chat slice works on: messages, chats, the slice state record
 * with its defaults, and the calls the slice makes into code outside it.
 */
module ChatTypes {

  /** A JavaScript property that may be absent (or null / undefined). */
  datatype Option<+T> = None | Some(value: T) {
    function GetOr(default: T): T {
      if Some? then value else default
    }
  }

  /** JavaScript truthiness of a nullable string: present and not empty. */
  predicate Truthy(s: Option<string>) {
    s.Some? && s.value != ""
  }

  /**
   * The CHAT_EVENTS constants the slice tests for or sends, and any other event
   * text. `Named(name)` stands only for a text that is none of the constants
   * with a constructor of their own, so each event text has one model value.
   */
  datatype EventKind =
    | AskPermissionIgnored
    | ContactInformation
    | Answered
    | Terminated
    | ClientLeft
    | Named(name: string)

  /**
   * CHAT_STATUS; statuses the slice never tests for pass through unchanged.
   * `OtherStatus(name)` stands only for a text other than OPEN's and ENDED's.
   */
  datatype ChatStatus = Open | Ended | OtherStatus(name: string)

  /**
   * CHAT_MODES; only FREE (the default) is named by the slice.
   * `OtherMode(name)` stands only for a text other than FREE's.
   */
  datatype ChatMode = Free | OtherMode(name: string)

  /** A chat message; every property except the record itself may be absent. */
  datatype Message = Message(
    id: Option<string>,
    chatId: Option<string>,
    content: Option<string>,
    event: Option<EventKind>,
    authorRole: Option<string>,
    authorTimestamp: Option<string>,
    rating: Option<int>)

  /** The object spread `{ ...existing, ...incoming }`: each property the incoming message carries wins. */
  function Merge(existing: Message, incoming: Message): (r: Message)
    ensures incoming == Message(None, None, None, None, None, None, None) ==> r == existing
    ensures existing == Message(None, None, None, None, None, None, None) ==> r == incoming
    ensures r.id == (if incoming.id.Some? then incoming.id else existing.id)
    ensures r.event.Some? <==> existing.event.Some? || incoming.event.Some?
  {
    Message(
      Overlay(existing.id, incoming.id),
      Overlay(existing.chatId, incoming.chatId),
      Overlay(existing.content, incoming.content),
      Overlay(existing.event, incoming.event),
      Overlay(existing.authorRole, incoming.authorRole),
      Overlay(existing.authorTimestamp, incoming.authorTimestamp),
      Overlay(existing.rating, incoming.rating))
  }

  /** One property under the spread: the top object's value when it has one. */
  function Overlay<T>(base: Option<T>, top: Option<T>): (r: Option<T>)
    ensures r.Some? <==> base.Some? || top.Some?
  {
    if top.Some? then top else base
  }

  /** Spreading the same incoming message a second time changes nothing. */
  lemma MergeAbsorbs(existing: Message, incoming: Message)
    ensures Merge(Merge(existing, incoming), incoming) == Merge(existing, incoming)
    ensures incoming.id.Some? ==> Merge(existing, incoming).id == incoming.id
    ensures incoming.id.None? ==> Merge(existing, incoming).id == existing.id
  {
  }

  datatype Chat = Chat(id: string, status: ChatStatus, customerSupportId: string, externalId: Option<string>)

  datatype EstimatedWaiting = EstimatedWaiting(isActive: bool, time: int)

  datatype Feedback = Feedback(
    isFeedbackConfirmationShown: bool,
    isFeedbackMessageGiven: bool,
    isFeedbackRatingGiven: bool,
    showFeedbackWarning: bool)

  datatype EndUserContacts = EndUserContacts(idCode: string, mailAddress: string, phoneNr: string, comment: string)

  /** The greeting the server returns: both language variants and whether it is shown. */
  datatype Greeting = Greeting(eng: string, est: string, isActive: bool)

  /** The slice state record. */
  datatype ChatState = ChatState(
    chatId: Option<string>,
    isChatOpen: bool,
    chatStatus: Option<ChatStatus>,
    customerSupportId: string,
    lastReadMessageTimestamp: Option<string>,
    messages: seq<Message>,
    messageQueue: seq<Message>,
    newMessagesAmount: nat,
    eventMessagesToHandle: seq<Message>,
    errorMessage: string,
    estimatedWaiting: EstimatedWaiting,
    loading: bool,
    showContactForm: bool,
    contactMsgId: string,
    isChatRedirected: bool,
    feedback: Feedback,
    endUserContacts: EndUserContacts,
    chatMode: ChatMode)

  /** The defaults every session starts from and every reset returns to. */
  const InitialState: ChatState := ChatState(
    chatId := None,
    isChatOpen := false,
    chatStatus := None,
    customerSupportId := "",
    lastReadMessageTimestamp := None,
    messages := [],
    messageQueue := [],
    newMessagesAmount := 0,
    eventMessagesToHandle := [],
    errorMessage := "",
    estimatedWaiting := EstimatedWaiting(false, 0),
    loading := false,
    showContactForm := false,
    contactMsgId := "",
    isChatRedirected := false,
    feedback := Feedback(false, false, false, false),
    endUserContacts := EndUserContacts("", "", "", ""),
    chatMode := Free)

  /** Storage keys the slice reads and writes directly. */
  const TerminationTimeKey := "terminationTime"
  const PreviousChatIdKey := "previousChatId"

  /** `getItem` on a storage area: the stored text, or null when the key is absent. */
  function Lookup(store: map<string, string>, key: string): (r: Option<string>)
    ensures r.None? <==> key !in store
    ensures r.Some? ==> r.value == store[key]
  {
    if key in store then Some(store[key]) else None
  }

  /**
   * A call from the slice into code whose body is not part of this model:
   * the storage helpers and the chat / notification services.
   */
  datatype Effect =
    | PersistNewMessagesAmount(amount: nat)                  // storage helper: the unread counter
    | PersistSessionChatId(sessionChatId: Option<string>)    // storage helper: the session chat-id slot
    | ClearStateVariables                                    // storage helper: clear the stored state variables
    | EndChatRequest(chatId: Option<string>, endEvent: EventKind, authorTimestamp: string) // an end-user event closing the chat
    | AddToTerminationQueue(queuedChatId: string)
    | RemoveFromTerminationQueue(dequeuedChatId: string)
    | NpmRatingRequest(ratedChatId: string, npmRating: int)
    | FeedbackRequest(feedbackChatId: string, userFeedback: string)
    | GetMessages(fetchedChatId: string)
}
