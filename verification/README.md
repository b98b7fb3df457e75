# Chat bookkeeping of a Firebase chat client, in Dafny

The app is a SwiftUI chat client. A hosted document store handles storage,
authentication and live queries. Inside its two view models
(`MainMessageViewModal` and `ChatLogViewModel`) and its three record types
(`ChatUser`, `ChatMessage`, `RecentMessage`) sits a small layer of pure
bookkeeping. This project models that layer as pure functions over
sequences and string-keyed maps and proves what it guarantees:

- **Records decoded with defaults** (`values.dfy`, `chat_user.dfy`,
  `chat_message.dfy`, `recent_message.dfy`). A `[String: Any]` document is a
  `map<string, Value>`. Each string field is the string stored at its key,
  or `""` when the key is missing or holds some other value. A
  `RecentMessage` without a stored timestamp takes the clock reading `now`.
  Each decoder is total and is proved to read back the dictionary the app
  writes for that record.
- **Conversation list** (`recent_list.dfy`). Each document change removes
  the first entry with the same document id and inserts the new entry at
  index 0. The change type is not looked at. The proofs show that this
  move-to-front list keeps one entry per id. The latest change wins, the
  other entries keep their order, and re-subscribing starts from an empty
  list.
- **Message log** (`chat_log.dfy`). Opening a conversation clears the log.
  After that, each snapshot appends the messages of its `.added` changes,
  in order. Existing messages are never touched.
- **Write plan of a send** (`send_plan.dfy`). One message record goes under
  `messages/<uid>/<partner>` and under `messages/<partner>/<uid>`. One
  recent-message entry goes to each participant, stored under the other
  participant's id.
- **Conversation-list display** (`conversation_list.dfy`). This covers the
  partner id of an entry and the profile rebuilt when an entry is tapped.
  It also covers removing `@gmail.com` from email addresses.

The model follows the code, including where a stricter chat service
would behave differently:

- the code does not reject blank text;
- the two message copies are independent writes, not one atomic write, and
  nothing retries them;
- the conversation list is ordered by when changes arrive (move-to-front),
  not sorted by timestamp;
- a `.removed` change is upserted like any other change;
- the recent-message entries of a send are built in the completion of the
  sender's write, from the text and partner as they are then, which need
  not be those of the tap.

## Model

| member | source | states |
|---|---|---|
| ChatUsers.DecodeFields | firebaseChat/Model/ChatUser.swift:11-18 | decoding any dictionary (total) gives each of uid, email and profileImageUrl the string stored at its key, or `""` when the key is missing or holds a non-string; the id is the uid |
| ChatUsers.Encode | firebaseChat/Login.swift:159 | the profile dictionary holds exactly the keys uid, email, profileImageUrl |
| ChatUsers.DecodeEncode | firebaseChat/Model/ChatUser.swift:14-18 | decoding a profile dictionary returns exactly the three strings it was built from |
| ChatUsers.DecodeEmpty | firebaseChat/Model/ChatUser.swift:14-18 | the empty dictionary decodes to the user with all three fields `""` |
| ChatUsers.DecodeIgnoresOtherKeys | firebaseChat/Model/ChatUser.swift:14-18 | adding or changing any key other than uid, email, profileImageUrl does not change the decoded user |
| ChatMessages.DecodeFields | firebaseChat/MainMessage/Chat/ChatLogView.swift:21-33 | the message id is the document id; fromId, toId and text are the strings at their keys, or `""` when missing or not strings |
| ChatMessages.Encode | firebaseChat/MainMessage/Chat/ChatLogView.swift:118 | the message record holds exactly fromId, toId, text and a timestamp, which is the send's clock reading |
| ChatMessages.DecodeEncode | firebaseChat/MainMessage/Chat/ChatLogView.swift:28-33 | a written message record reads back, under any document id, with the sender, recipient and text it was written with |
| RecentMessages.DecodeFields | firebaseChat/MainMessage/MainMessageView.swift:12-30 | the entry id is the document id; text, fromId, toId, profileImageUrl and email are the strings at their keys or `""`; the timestamp is the stored one, or the clock reading when none is stored |
| RecentMessages.Encode | firebaseChat/MainMessage/Chat/ChatLogView.swift:161-168 | a recent-message entry holds exactly timestamp, text, fromId, toId, profileImageUrl and email |
| RecentMessages.DecodeEncode | firebaseChat/MainMessage/MainMessageView.swift:22-30 | a written entry reads back with its own timestamp (the clock is not used), its text, sender and recipient, and its image and email strings (`""` for a stored `nil`) |
| RecentList.FirstIndex | firebaseChat/MainMessage/MainMessageView.swift:66-69 | the index found is the first entry with the id; none is found exactly when no entry has it |
| RecentList.Remove | firebaseChat/MainMessage/MainMessageView.swift:66-71 | removal shortens the list by one when the id is present and leaves it unchanged when absent |
| RecentList.Upsert | firebaseChat/MainMessage/MainMessageView.swift:65-72 | the new entry is at index 0; the length is unchanged when the id was present and grows by one (the old list follows the new entry) when it was absent |
| RecentList.UpsertIds | firebaseChat/MainMessage/MainMessageView.swift:65-72 | after an upsert the list holds exactly the old ids plus the upserted one |
| RecentList.UpsertUnique | firebaseChat/MainMessage/MainMessageView.swift:66-72 | if no two entries shared an id before, none do after; the list is the new entry followed by every other entry in order |
| RecentList.UpsertKeepsOthers | firebaseChat/MainMessage/MainMessageView.swift:70-72 | whatever the list, entries with other ids keep their contents and relative order |
| RecentList.FindUpsert | firebaseChat/MainMessage/MainMessageView.swift:65-72 | after an upsert, a lookup of the upserted id finds the new entry; a lookup of any other id finds what it found before |
| RecentList.ApplyChanges | firebaseChat/MainMessage/MainMessageView.swift:64-73 | after a non-empty batch the front entry is the last change's entry; the list never shrinks and grows by at most the batch size |
| RecentList.ApplyChangesIds | firebaseChat/MainMessage/MainMessageView.swift:64-73 | a batch adds exactly the ids of its changes to the list |
| RecentList.ApplyChangesUnique | firebaseChat/MainMessage/MainMessageView.swift:64-73 | a batch keeps the list free of duplicate ids |
| RecentList.ApplyChangesFind | firebaseChat/MainMessage/MainMessageView.swift:64-73 | latest change wins: after a batch, the entry for an id carries the data of the last change to that id, or is the earlier entry when the batch does not touch it |
| RecentList.ApplyChangesConcat | firebaseChat/MainMessage/MainMessageView.swift:58-73 | two batches in a row have the same effect as one batch holding both |
| RecentList.ApplyChangesIgnoresKind | firebaseChat/MainMessage/MainMessageView.swift:64-73 | the change type plays no part: batches that differ only in change types give the same list |
| RecentList.ApplyDistinctFromEmpty | firebaseChat/MainMessage/MainMessageView.swift:52-73 | from an empty list, a batch with distinct ids gives its entries newest first, the reverse of change order |
| RecentList.FetchRecentMessages | firebaseChat/MainMessage/MainMessageView.swift:49-57 | without a signed-in user nothing changes; otherwise the list is emptied and the listener is replaced by one on `recent_messages/<uid>/messages` ordered by timestamp |
| RecentList.OnRecentSnapshot | firebaseChat/MainMessage/MainMessageView.swift:58-74 | a listener error leaves the list as it is; a snapshot leaves the error text as it is; neither changes the listener |
| RecentList.RunRecentFromEmpty | firebaseChat/MainMessage/MainMessageView.swift:58-74 | starting from an empty list, any run of listener calls yields the result of applying every delivered change, in order, to the empty list |
| RecentList.SubscriptionKeepsOneEntryPerId | firebaseChat/MainMessage/MainMessageView.swift:49-74 | after re-subscribing, whatever is delivered, the list holds one entry per id, exactly the delivered ids, with the last delivered change at the front |
| RecentList.ProcessRecentChange | firebaseChat/MainMessage/MainMessageView.swift:65-72 | one pass of the closure puts the decoded change at the front and adds its id to the list's ids; on a list with one entry per id it keeps one entry per id, and the rest of the list is the old list without that id, in order |
| RecentList.ProcessRecentChanges | firebaseChat/MainMessage/MainMessageView.swift:64-73 | the `forEach` loop computes the batch result, keeps ids unique and adds exactly the batch's ids |
| ChatLog.AddedMessagesSingle | firebaseChat/MainMessage/Chat/ChatLogView.swift:95-98 | an `.added` change contributes its decoded message; a `.modified` or `.removed` one contributes nothing |
| ChatLog.AddedMessagesConcat | firebaseChat/MainMessage/Chat/ChatLogView.swift:94-99 | the messages of two batches in a row are those of the first followed by those of the second |
| ChatLog.AddedMessagesSource | firebaseChat/MainMessage/Chat/ChatLogView.swift:94-99 | every appended message is the decoding of some `.added` change, and every `.added` change's message is appended |
| ChatLog.NoAddedNoMessages | firebaseChat/MainMessage/Chat/ChatLogView.swift:95 | a batch without `.added` changes appends nothing |
| ChatLog.ProcessMessageChanges | firebaseChat/MainMessage/Chat/ChatLogView.swift:94-99 | the `forEach` loop leaves the existing prefix untouched, adds at most one message per change, and appends exactly the `.added` messages in order |
| ChatLog.FetchMessages | firebaseChat/MainMessage/Chat/ChatLogView.swift:76-86 | without a signed-in user or partner nothing changes; otherwise the log is cleared, the error text shows the uid, and the listener is on `messages/<uid>/<partner>` ordered by timestamp |
| ChatLog.OnMessagesSnapshot | firebaseChat/MainMessage/Chat/ChatLogView.swift:87-99 | a listener call only ever extends the log, keeping its prefix; an error call leaves the log unchanged |
| ChatLog.RunMessagesAppends | firebaseChat/MainMessage/Chat/ChatLogView.swift:87-99 | after any run of listener calls, the log is the old log followed by the messages of all delivered `.added` changes |
| ChatLog.OpenedLogHoldsOnlyDelivered | firebaseChat/MainMessage/Chat/ChatLogView.swift:76-99 | after opening a conversation, the log holds exactly the messages delivered since, with nothing from before |
| SendPlan.MessageWrites | firebaseChat/MainMessage/Chat/ChatLogView.swift:107-138 | without a signed-in user or partner nothing is written; otherwise exactly two writes |
| SendPlan.RecentWrites | firebaseChat/MainMessage/Chat/ChatLogView.swift:149-194 | without a partner or signed-in user nothing is written; otherwise exactly two entries |
| SendPlan.SendWrites | firebaseChat/MainMessage/Chat/ChatLogView.swift:107-194 | a send writes 0, 2 or 4 documents: something exactly when a user is signed in and a partner is chosen at the tap, and 4 exactly when the sender's copy was then saved and a user and partner are still present at the completion; the message copies go under the tap's partner, the recent entries under the completion's |
| SendPlan.AfterSenderWrite | firebaseChat/MainMessage/Chat/ChatLogView.swift:120-131 | on success the input text is cleared and the error text is kept; on failure the text is kept; the log, listener and partner never change |
| SendPlan.MessageWritesMirrored | firebaseChat/MainMessage/Chat/ChatLogView.swift:113-138 | one identical record goes to `messages/<uid>/<partner>` and `messages/<partner>/<uid>`, and both copies read back as the message from the user to the partner with the typed text |
| SendPlan.RecentWritesKeyedByPartner | firebaseChat/MainMessage/Chat/ChatLogView.swift:155-194 | entries go to `recent_messages/<uid>/messages/<partner>` and `recent_messages/<partner>/messages/<uid>` with the same text, fromId and toId; the sender's copy shows the partner's email and image, the recipient's copy the sender's auth email and profile image, or `""` for either when missing |
| SendPlan.SendWritesReadBothStates | firebaseChat/MainMessage/Chat/ChatLogView.swift:118-194 | the message copies carry the text, user and partner of the tap; the recent entries carry the text, user and partner read again at the completion |
| SendPlan.SavedSendWritesFour | firebaseChat/MainMessage/Chat/ChatLogView.swift:113-194 | when text and partner are unchanged between tap and completion, a saved send writes four documents, all with the same text, the user as fromId and the partner as toId |
| SendPlan.DoubleTapRecentTextCleared | firebaseChat/MainMessage/Chat/ChatLogView.swift:118-183 | Send tapped twice before the first completion: the second send's message copy, under its own fresh document id, carries the typed text, while its recent entries, stored under the same paths as the first's, carry `""` because the first completion cleared the field |
| SendPlan.SwitchedConversationRecentEntries | firebaseChat/MainMessage/Chat/ChatLogView.swift:148-192 | if another conversation is opened before the completion, the recent entries are stored for the newly opened partner while the message copies went to the tap's partner |
| ConversationList.PartnerId | firebaseChat/MainMessage/MainMessageView.swift:192 | the partner is toId when the signed-in uid equals fromId, otherwise fromId (also with nobody signed in) |
| ConversationList.ChatPartner | firebaseChat/MainMessage/MainMessageView.swift:192-197 | tapping an entry gives the profile with the partner id, the entry's email and the entry's image |
| ConversationList.PartnerIsDocumentKey | firebaseChat/MainMessage/Chat/ChatLogView.swift:155-194 | for both entries a send writes, the partner the owner's list shows is the id the entry is stored under, even for a message to oneself |
| ConversationList.ReopenFromRecentEntry | firebaseChat/MainMessage/MainMessageView.swift:191-198 | reopening from the sender's list gives back the exact profile the message was sent to; from the recipient's list it gives the sender's uid, auth email and profile image |
| ConversationList.SendUpdatesSenderList | firebaseChat/MainMessage/MainMessageView.swift:64-73 | when the sender's new entry arrives, it moves to the front with the sent text and leads back to the partner; the other conversations follow in order, one entry per id |
| ConversationList.StripGmail | firebaseChat/MainMessage/MainMessageView.swift:213 | removing `@gmail.com` never lengthens a name |
| ConversationList.NavBarTitleShown | firebaseChat/MainMessage/MainMessageView.swift:129 | the title is `""` before the profile loads; a Gmail user whose local part has no `@` sees the local part; an email is shown unchanged exactly when `@gmail.com` does not occur in it, and strictly shorter otherwise |
| ConversationList.StripGmailAddress | firebaseChat/MainMessage/MainMessageView.swift:213 | a Gmail address whose local part has no `@` is shown as its local part |
| ConversationList.StripGmailShrinks | firebaseChat/MainMessage/MainMessageView.swift:213 | a name containing `@gmail.com` is shown strictly shorter |
| ConversationList.StripGmailUnchanged | firebaseChat/MainMessage/MainMessageView.swift:213 | a name is shown unchanged exactly when `@gmail.com` does not occur in it |

## Left out

- Document-store and auth I/O (`setData`, `getDocument`, `addSnapshotListener`, `remove`, `signIn`, `createUser`, `putData`, `downloadURL`) is not modelled. These are asynchronous calls into the vendor SDK. The model takes their inputs and results as parameters: listener calls as `SnapshotEvent`s, the sender-write outcome as `senderSaved`/`error`, and the signed-in account as `AuthUser`.
- The two message writes are not atomic and are not retried. The model only states what each write carries. It claims nothing about both succeeding.
- Wall-clock readings (`Timestamp()`, `Date()`) and store-generated document ids (`.document()`) are parameters. `RunRecent` passes one clock reading to every decode of a run.
- A `nil` snapshot with no error is modelled as a snapshot with no changes. The code does the same thing in both cases.
- `fetchCurrentUser`'s `getDocument` callback is not modelled, in either view model. It is I/O followed by `ChatUser` decoding, which `ChatUsers.DecodeFields` covers. Only its synchronous effect (the error text showing the uid) appears, in `ChatLog.FetchMessages`.
- The completion handlers of the recipient's message write and of both recent-message writes are not modelled. On failure, the first two set the error text and the last only logs. The network decides the order in which they run.
- Console logging (`print` in `handleSend`, its completions and `persistRecentMessage`) is not modelled. It changes no state.
- The `count` ticker, `DispatchQueue` hops, sign-out, view-model initialisers and all SwiftUI views, scrolling and navigation are not modelled.
- Login and account creation (form state, the avatar-required guard, storage upload) are not modelled. Only the profile dictionary written at sign-up appears, as `ChatUsers.Encode`.
- `replacingOccurrences` is modelled as a literal left-to-right removal over `seq<char>`. It does no Unicode canonical-equivalence matching.
- Document-id and uid comparisons (the `firstIndex` match in `MainMessageView.swift` line 68 and the partner choice at line 192) are modelled as scalar-by-scalar equality of `seq<char>`. Swift's `String ==` also equates canonically equivalent strings, so the two agree only for ids that have no canonical-equivalence variants. ASCII ids, such as store-generated document ids and auth uids, have none.
