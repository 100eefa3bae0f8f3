# Chat slice of a support-chat widget, in Dafny

This project models the state core of a live support-chat widget: the Redux
chat slice (`src/slices/chat-slice.ts`). The slice holds one chat session's
state. That state covers the message list, the queue of outgoing messages, the
unread counter, the chat status, the contact and feedback sub-states, the
waiting-time estimate and the derived chat mode. Every reducer, every
fulfilled or rejected case, and the decisions inside the thunks that end a
chat, hand it to the termination queue or resume it after a page reload are
modelled here.

Files:

- `chat_types.dfy` (module `ChatTypes`) holds the values. It has `Message`, `Chat`,
  `ChatState` and its defaults `InitialState`, the object spread `Merge`, the
  two storage keys, and `Effect`. An `Effect` is one call the slice makes into
  code outside it: a storage helper, the chat service or the notification
  service.
- `reconciler.dfy` (module `Reconciler`) holds the message reconciler of
  `addMessagesToDisplay`. `Reconcile` is its reference definition and
  `MergeIncoming` is the loop, proved equal to it. The file also has
  `ReplaceById`, the id-based replace used by `updateMessage` and by the
  ASK_PERMISSION_IGNORED case.
- `lifecycle.dfy` (module `Lifecycle`) holds the event switch of
  `handleStateChangingEventMessages`. It is a fold over the payload
  (`ApplyEvents`), and the lemmas say what that fold does.
- `chat_slice.dfy` (module `ChatSlice`) holds the slice itself. `ChatStore` holds the
  current `ChatState` value; Redux replaces that value on every action. It has
  one method per action. `Host` is the page: its session-scoped and durable
  storage as two string maps, and an `outbox` that logs the slice's calls
  into code outside it. The file ends with two scenario methods: ending a chat
  twice, and the termination hand-off across a reload.

Inputs from the environment become parameters:

- the clock (`now`);
- the two reload signals (`pageReloaded`, `aboutToBeTerminated`);
- the matcher `findMatchingMessageFromMessageList` (`find: Matcher`);
- the chat-mode rule `getChatModeBasedOnLastMessage` (`modeOf: ModeRule`);
- the value `getFromLocalStorage` returns (`storedChatId`);
- the greeting's newline rewrite (`unescape`);
- the text of the `ERROR_MESSAGE` constant (`errorText`).

Nothing is assumed about the matcher except where a lemma says so. Two lemmas
assume a property of it as a hypothesis. `MatchesComeFromBatch` assumes that a
match is an element of the pool it was looked up in (`SoundMatcher`).
`ReconcileKeepsIds` assumes that a match found for a message with an id never
carries a different id (`IdRespecting`).

Some behaviours of the code differ from what its names suggest. The model
follows the code:

- The resume check (`removeChatFromTerminationQueue`) is not a no-op when no
  previous chat id is stored. Once both signals hold, it still writes the
  (null) id to the session chat-id slot and removes the termination time.
- Within the slice, only the `endChat` fulfilled case removes the stored
  previous chat id. An ANSWERED or TERMINATED event only calls the
  state-variable clearing helper. Whether that helper also removes the id
  depends on its body, which is not part of this model; the model assumes it
  does not (see "Left out").
- Redirecting to a forwarded chat is not one-way in the code. `setChatId`,
  `resetStateWithValue` and `setIsChatOpen` can still replace the chat id.
- Two quirks of `addMessagesToDisplay` are kept as written. First, in-place
  merges are thrown away when nothing is appended. Second, the pool is
  filtered by the match's id, so a match without an id drops every incoming
  message without an id (`NothingLeftIffAllClaimed`).

## Model

| member | source | states |
|---|---|---|
| `ChatTypes.Merge` | src/slices/chat-slice.ts:249 | The object spread: the merged id is the incoming id when it has one, else the existing id; spreading an empty message changes nothing, and spreading over an empty message gives the incoming one; the merged message has an event exactly when either side has one |
| `ChatTypes.Lookup` | src/slices/chat-slice.ts:169 | Reading a storage key gives null exactly when the key is absent, and otherwise the stored text |
| `ChatTypes.MergeAbsorbs` | src/slices/chat-slice.ts:249 | Spreading the same incoming message over an entry twice gives what spreading it once gives; the merged id is the incoming id when it has one, else the existing id |
| `Reconciler.Keep` | src/slices/chat-slice.ts:248 | The filtered pool holds exactly the pool messages whose id is not dropped, and is never longer than the pool |
| `Reconciler.KeepTwice` | src/slices/chat-slice.ts:245-250 | Filtering the pool once per match, in sequence, is the same as filtering once by the set of all matched ids |
| `Reconciler.MatchedIds` | src/slices/chat-slice.ts:246-248 | The id set holds the id of every match found and nothing else |
| `Reconciler.MergeWith` | src/slices/chat-slice.ts:247-249 | A displayed message with no match is returned as it is; with a match, its id becomes the match's id when the match has one and stays its own otherwise |
| `Reconciler.Reconcile` | src/slices/chat-slice.ts:245-250 | The mapped list has exactly one entry, and one match slot, per displayed message |
| `Reconciler.ReconcileKeepsPositions` | src/slices/chat-slice.ts:245-250 | Every displayed message keeps its index: unchanged where no match was found, shallow-merged with its match where one was |
| `Reconciler.ReconcileIds` | src/slices/chat-slice.ts:245-250 | After reconciling, every entry's id is its match's id when that match has an id, and its own id otherwise |
| `Reconciler.ReconcileKeepsIds` | src/slices/chat-slice.ts:245-250 | If the matcher never returns a match with a different id, no displayed message that has an id changes its id |
| `Reconciler.ReconcileLeftover` | src/slices/chat-slice.ts:245-252 | The messages appended are the incoming batch in its given order, minus every message whose id equals some match's id |
| `Reconciler.NothingToReconcile` | src/slices/chat-slice.ts:242-243 | An empty incoming batch leaves nothing to append |
| `Reconciler.MatchesComeFromBatch` | src/slices/chat-slice.ts:246-249 | If the matcher only returns pool members, every merged-in match is a message of the incoming batch |
| `Reconciler.NothingLeftIffAllClaimed` | src/slices/chat-slice.ts:248-255 | Nothing is appended exactly when every incoming message shares its id with some match; a match without an id leaves no id-less message to append |
| `Reconciler.MergeIncoming` | src/slices/chat-slice.ts:245-252 | The loop that shrinks the pool as it maps the list returns the reference reconciliation: merged list then leftovers, whose length is the old length plus the number appended |
| `Reconciler.ReplaceById` | src/slices/chat-slice.ts:221 | Same length; at every index the message is replaced by the payload exactly when their ids are equal (absent ids count as equal) |
| `Reconciler.ReplaceByIdLaws` | src/slices/chat-slice.ts:220-222 | Replacing twice equals replacing once; with no id in common the list is unchanged; with one, the payload ends up in the list |
| `Lifecycle.ApplyEvent` | src/slices/chat-slice.ts:265-282 | One event message: an unhandled event changes nothing; the status becomes ENDED exactly for ANSWERED and TERMINATED and is kept otherwise; the message count is kept; only the messages, the contact form flag, the contact message id and the status can change |
| `Lifecycle.ApplyEvents` | src/slices/chat-slice.ts:264-283 | The in-order loop over the payload: the status afterwards is either the old status or ENDED, and a shown contact form stays shown |
| `Lifecycle.ClearsFor` | src/slices/chat-slice.ts:273-280 | The loop issues at most one storage clear per payload message, and at least one when the last message is ANSWERED or TERMINATED |
| `Lifecycle.EndedExactlyOnEndEvent` | src/slices/chat-slice.ts:273-280 | After the loop the status is ENDED exactly when some payload message is ANSWERED or TERMINATED, otherwise as before; storage is cleared exactly then, and only clears are issued |
| `Lifecycle.EventsKeepMessageCount` | src/slices/chat-slice.ts:266-268 | ASK_PERMISSION_IGNORED replacements never change the number of displayed messages |
| `Lifecycle.LastContactRequestWins` | src/slices/chat-slice.ts:269-272 | After a CONTACT_INFORMATION message the contact form is shown, and the remembered id is that of the last such message, or '' when it has none |
| `Lifecycle.EventsFrame` | src/slices/chat-slice.ts:263-284 | The event loop changes only the messages, the contact form flag, the contact message id and the chat status |
| `Lifecycle.OtherEventsChangeNothing` | src/slices/chat-slice.ts:281-282 | A payload with no handled event leaves the state unchanged and clears nothing |
| `ChatSlice.ChatStore.constructor` | src/slices/chat-slice.ts:47-79 | A new store starts from the initial state |
| `ChatSlice.ChatStore.ResetState` | src/slices/chat-slice.ts:183 | The whole state returns to the initial state |
| `ChatSlice.ChatStore.ResetStateWithValue` | src/slices/chat-slice.ts:184-186 | Only the chat id changes, to the given id |
| `ChatSlice.ChatStore.SetChatId` | src/slices/chat-slice.ts:187-189 | Only the chat id changes, to the given id |
| `ChatSlice.ChatStore.AddMessage` | src/slices/chat-slice.ts:190-192 | The message is appended to the list; nothing else changes |
| `ChatSlice.ChatStore.SetIsChatOpen` | src/slices/chat-slice.ts:193-197 | The chat id becomes the stored session chat id, the open flag is set and the unread counter is zeroed |
| `ChatSlice.ChatStore.ClearMessageQueue` | src/slices/chat-slice.ts:198-200 | The outgoing queue is emptied; nothing else changes |
| `ChatSlice.ChatStore.SetFeedbackMessageGiven` | src/slices/chat-slice.ts:201-203 | Only the message-given flag changes |
| `ChatSlice.ChatStore.SetFeedbackRatingGiven` | src/slices/chat-slice.ts:204-207 | The rating-given flag is set and the feedback warning withdrawn |
| `ChatSlice.ChatStore.SetFeedbackWarning` | src/slices/chat-slice.ts:208-210 | Only the feedback warning changes |
| `ChatSlice.ChatStore.SetShowContactForm` | src/slices/chat-slice.ts:211-213 | Only the contact form flag changes |
| `ChatSlice.ChatStore.QueueMessage` | src/slices/chat-slice.ts:214-216 | The message is appended to the outgoing queue; nothing else changes |
| `ChatSlice.ChatStore.ResetNewMessagesAmount` | src/slices/chat-slice.ts:217-219 | Only the unread counter changes, to zero |
| `ChatSlice.ChatStore.UpdateMessage` | src/slices/chat-slice.ts:220-222 | The list becomes its id-based replacement by the payload and keeps its length |
| `ChatSlice.ChatStore.SetIsFeedbackConfirmationShown` | src/slices/chat-slice.ts:223-225 | Only the confirmation flag changes |
| `ChatSlice.ChatStore.SetEstimatedWaitingTimeToZero` | src/slices/chat-slice.ts:226-228 | The estimate's time becomes zero and its active flag is kept |
| `ChatSlice.ChatStore.SetEmailAddress` | src/slices/chat-slice.ts:229-231 | Only the end user's mail address changes |
| `ChatSlice.ChatStore.SetPhoneNumber` | src/slices/chat-slice.ts:232-234 | Only the end user's phone number changes |
| `ChatSlice.ChatStore.SetChat` | src/slices/chat-slice.ts:235-240 | A missing chat changes nothing; otherwise only the status and the support agent id are copied |
| `ChatSlice.ChatStore.AddMessagesToDisplay` | src/slices/chat-slice.ts:241-262 | A null or empty batch, or a batch that leaves nothing to append, changes nothing, merges included. Otherwise the list becomes merged list then leftovers, the last-read time is now, the counter grows by the number appended and is persisted with its new value, and the mode is derived from the new list. The list never shrinks |
| `ChatSlice.ChatStore.HandleStateChangingEventMessages` | src/slices/chat-slice.ts:263-284 | The loop leaves the state the event fold gives and issues one storage clear per ANSWERED or TERMINATED message |
| `ChatSlice.ChatStore.InitChatPending` | src/slices/chat-slice.ts:287-290 | The last-read time is stamped and loading is set |
| `ChatSlice.ChatStore.InitChatFulfilled` | src/slices/chat-slice.ts:291-295 | The chat id is the server's, loading is cleared, the status is OPEN |
| `ChatSlice.ChatStore.GetChatFulfilled` | src/slices/chat-slice.ts:296-300 | A null chat changes nothing; otherwise only the status and the support agent id are copied |
| `ChatSlice.ChatStore.GetChatMessagesFulfilled` | src/slices/chat-slice.ts:301-306 | A null payload changes nothing; otherwise the fetched list (even empty) replaces the list, the last-read time is stamped and the mode is re-derived |
| `ChatSlice.ChatStore.GetGreetingFulfilled` | src/slices/chat-slice.ts:307-315 | An inactive greeting changes nothing; an active one appends one greeting message with the rewritten Estonian text and the current time |
| `ChatSlice.ChatStore.EndChatFulfilled` | src/slices/chat-slice.ts:316-322 | The status is ENDED, both feedback flags are cleared, the storage clear is issued and the stored previous chat id is removed |
| `ChatSlice.ChatStore.AddChatToTerminationQueueFulfilled` | src/slices/chat-slice.ts:323-328 | The status is ENDED, both feedback flags are cleared and the storage clear is issued; the previous chat id stays stored |
| `ChatSlice.ChatStore.SendChatNpmRatingRejected` | src/slices/chat-slice.ts:329-331 | Only the error message changes, to the error text |
| `ChatSlice.ChatStore.SendFeedbackMessageRejected` | src/slices/chat-slice.ts:332-334 | Only the error message changes, to the error text |
| `ChatSlice.ChatStore.GetEstimatedWaitingTimeFulfilled` | src/slices/chat-slice.ts:335-337 | The estimate is replaced wholesale |
| `ChatSlice.ChatStore.GenerateForwardingRequestFulfilled` | src/slices/chat-slice.ts:338-343 | A non-empty external id on the first entry becomes the chat id and raises the redirected flag; otherwise nothing changes |
| `ChatSlice.ChatStore.GetChatMessages` | src/slices/chat-slice.ts:92-97 | The messages are requested only for a non-empty chat id |
| `ChatSlice.ChatStore.SendChatNpmRating` | src/slices/chat-slice.ts:99-105 | The rating is sent exactly when the chat id is not null, an empty id included |
| `ChatSlice.ChatStore.SendFeedbackMessage` | src/slices/chat-slice.ts:107-113 | The feedback is sent exactly when the chat id is not null, an empty id included |
| `ChatSlice.ChatStore.EndChat` | src/slices/chat-slice.ts:115-131 | The state always returns to the initial state; the CLIENT_LEFT request, carrying the chat id read before the reset, goes out exactly when the status read before the reset was not ENDED |
| `ChatSlice.ChatStore.AddChatToTerminationQueue` | src/slices/chat-slice.ts:151-162 | The termination time goes to session storage and the chat id ('' for null) to durable storage, the state is reset, and the chat is queued exactly when its id is non-empty |
| `ChatSlice.ChatStore.RemoveChatFromTerminationQueue` | src/slices/chat-slice.ts:164-177 | Without both signals nothing changes. With both, the stored previous id goes to the session chat-id slot and the termination time is removed; a non-empty previous id becomes the chat id and is taken off the queue |
| `ChatSlice.EndChatTwice` | src/slices/chat-slice.ts:115-131 | Two end-chat calls in a row, each followed by its fulfilled case, send at most one CLIENT_LEFT request and leave the status ENDED |
| `ChatSlice.TerminationHandOffAcrossReload` | src/slices/chat-slice.ts:151-177 | Entering termination, reloading and resuming gives the fresh store the prior chat id exactly when it was non-empty, removes the termination time, and queues then dequeues that id |

## Left out

- The Redux plumbing is not modelled: `createSlice`, `createAsyncThunk`, dispatch, pending cases that have no reducer, and Immer drafts. Each case is a method that takes its payload.
- The thunks that only forward to the chat service make no decision in the slice, so they are not modelled: `initChat`, `getChat`, `sendMessageWithRating`, `sendMessageWithNewEvent`, `getGreeting`, `sendNewMessage`, `getEstimatedWaitingTime`, `removeChatForwardingValue` and `generateForwardingRequest`. Their results reach the model as the payloads of the fulfilled cases.
- `initChat` reads the page URL and the browser's user agent. This is I/O, so it is not modelled.
- `src/services/chat-service.ts` is not modelled beyond the `Effect` log. Each of its methods is a single HTTP or background request.
- `src/services/sse-service.ts` is not part of this model. It is browser event-source wiring, JSON parsing and logging.
- The bodies of these helpers are not part of this model: `findMatchingMessageFromMessageList`, `getChatModeBasedOnLastMessage`, `clearStateVariablesFromLocalStorage`, `getFromLocalStorage`, `setToLocalStorage`, `wasPageReloaded` and `isChatAboutToBeTerminated`. The first two are function parameters and the last two are boolean inputs. What `getFromLocalStorage` returns is the input `storedChatId` of `SetIsChatOpen`. The calls to `setToLocalStorage` and `clearStateVariablesFromLocalStorage` are recorded as `Effect`s. `ClearStateVariables` is assumed not to touch the `terminationTime` or `previousChatId` keys; `TerminationHandOffAcrossReload` and the statement that only the `endChat` fulfilled case removes the previous chat id depend on that.
- Identity stability of displayed messages is not a property of the slice alone: it rests on `findMatchingMessageFromMessageList`, whose rule is not part of this model. `ReconcileKeepsIds` proves it only under the hypothesis `IdRespecting` about that matcher.
- The greeting's newline rewrite is the opaque parameter `unescape`. Dates are the opaque string `now`.
- A message property that is explicitly null or undefined is treated as absent. For the spread in `Merge`, JavaScript would copy such a null over the existing value; the model keeps the existing value.
- `Message` has seven properties: id, chat id, content, event, author role, author timestamp and rating. Any other property would behave like these under the spread and the id tests.
- JavaScript numbers are modelled as integers. The unread counter is a `nat`: it starts at zero and only grows or is zeroed. The estimate's `time` is an `int`, so fractional estimates are not modelled.
- `ChatSlice.ChatStore.GenerateForwardingRequestFulfilled`: an empty response makes the reducer throw when it reads index 0. The model requires a non-empty response instead of modelling the exception.
- `ChatSlice.ChatStore.SendChatNpmRatingRejected` and `ChatSlice.ChatStore.SendFeedbackMessageRejected` model only the reducer's effect. The service call in these thunks is not awaited, so whether a transport failure ever reaches them is not modelled.
- `ChatSlice.EndChatTwice` assumes that the first call's fulfilled case runs before the second call. If the second call starts while the first is still pending, it sees the reset status (null), and a second CLIENT_LEFT request goes out. The asynchronous interleaving of thunks is not modelled.
