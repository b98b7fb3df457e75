/** What sending a message writes, and where: `handleSend` stores one
    message record under both participants, and `persistRecentMessage`
    stores one conversation-list entry under each of them, keyed by the
    other. The writes themselves (and whether they succeed) belong to the
    document store; this module computes the plan. */
module SendPlan {
  import opened Values
  import ChatUsers
  import ChatMessages
  import RecentMessages
  import ChatLog

  /** The signed-in account as the auth service reports it. */
  datatype AuthUser = AuthUser(uid: string, email: Option<string>)

  /** One `setData` call: a document path and the dictionary written. */
  datatype Write = Write(path: seq<string>, data: Dict)

  /** The clock readings a send takes: one `Timestamp()` for the message
      record and one for each recent-message entry. */
  datatype SendClock = SendClock(message: Timestamp, senderRecent: Timestamp, recipientRecent: Timestamp)

  /** `handleSend`: without a signed-in user or a chat partner nothing is
      written; otherwise the same message record goes to a new document
      (id generated by the store) under `messages/<uid>/<partner>` and
      under `messages/<partner>/<uid>`. Blank text is not rejected. */
  function MessageWrites(auth: Option<AuthUser>, chatUser: Option<ChatUsers.ChatUser>, chatText: string,
                         now: Timestamp, senderDocId: string, recipientDocId: string): (w: seq<Write>)
    ensures auth.None? || chatUser.None? ==> w == []
    ensures auth.Some? && chatUser.Some? ==> |w| == 2
  {
    match (auth, chatUser)
    case (Some(user), Some(partner)) =>
      var messageData := ChatMessages.Encode(user.uid, partner.uid, chatText, now);
      [Write(["messages", user.uid, partner.uid, senderDocId], messageData),
       Write(["messages", partner.uid, user.uid, recipientDocId], messageData)]
    case _ => []
  }

  /** `persistRecentMessage`: the sender's entry, under
      `recent_messages/<uid>/messages/<partner>`, shows the partner's email
      and image; the recipient's entry, under
      `recent_messages/<partner>/messages/<uid>`, shows the sender's email
      as the auth service knows it and the image of the sender's profile
      as fetched into the view model, either of which may be `nil`. */
  function RecentWrites(auth: Option<AuthUser>, chatUser: Option<ChatUsers.ChatUser>,
                        currentProfile: Option<ChatUsers.ChatUser>, chatText: string,
                        clock: SendClock): (w: seq<Write>)
    ensures auth.None? || chatUser.None? ==> w == []
    ensures auth.Some? && chatUser.Some? ==> |w| == 2
  {
    match (auth, chatUser)
    case (Some(user), Some(partner)) =>
      var senderEntry := RecentMessages.Encode(clock.senderRecent, chatText, user.uid, partner.uid,
                                               Str(partner.profileImageUrl), Str(partner.email));
      var profileImage := match currentProfile case Some(p) => Some(p.profileImageUrl) case None => None;
      var recipientEntry := RecentMessages.Encode(clock.recipientRecent, chatText, user.uid, partner.uid,
                                                  OptionalString(profileImage), OptionalString(user.email));
      [Write(["recent_messages", user.uid, "messages", partner.uid], senderEntry),
       Write(["recent_messages", partner.uid, "messages", user.uid], recipientEntry)]
    case _ => []
  }

  /** Everything a send writes. The two message copies are built at the
      tap, from the view model as it is then (`atTap`, `authAtTap`). The
      two recent-message entries are built later, in the completion of the
      sender's copy, from the view model as it is by then (`atSave`,
      `authAtSave`): `persistRecentMessage` reads the signed-in user,
      `chatUser` and `chatText` afresh, and in between the text may have
      been edited or cleared by an earlier send's completion, or another
      conversation opened. A send stopped by a guard at the tap writes
      nothing and has no completion. */
  function SendWrites(atTap: ChatLog.ChatLogState, authAtTap: Option<AuthUser>,
                      atSave: ChatLog.ChatLogState, authAtSave: Option<AuthUser>,
                      currentProfile: Option<ChatUsers.ChatUser>, clock: SendClock,
                      senderDocId: string, recipientDocId: string, senderSaved: bool): (w: seq<Write>)
    ensures |w| == 0 || |w| == 2 || |w| == 4
    ensures |w| > 0 <==> authAtTap.Some? && atTap.chatUser.Some?
    ensures |w| == 4 <==> authAtTap.Some? && atTap.chatUser.Some? && senderSaved
                          && authAtSave.Some? && atSave.chatUser.Some?
    ensures |w| > 0 ==> w[0].path == ["messages", authAtTap.value.uid, atTap.chatUser.value.uid, senderDocId]
    ensures |w| == 4 ==> w[2].path == ["recent_messages", authAtSave.value.uid, "messages", atSave.chatUser.value.uid]
  {
    var messages := MessageWrites(authAtTap, atTap.chatUser, atTap.chatText, clock.message, senderDocId, recipientDocId);
    messages
    + (if senderSaved && |messages| == 2
       then RecentWrites(authAtSave, atSave.chatUser, currentProfile, atSave.chatText, clock)
       else [])
  }

  /** The completion of the sender's message write: on failure the error
      is shown and the text kept; on success the input field is cleared. */
  function AfterSenderWrite(s: ChatLog.ChatLogState, error: Option<string>): (r: ChatLog.ChatLogState)
    ensures r.chatMessages == s.chatMessages && r.listener == s.listener && r.chatUser == s.chatUser
    ensures error.None? ==> r.chatText == "" && r.errorMessage == s.errorMessage
    ensures error.Some? ==> r.chatText == s.chatText
  {
    match error
    case Some(e) => s.(errorMessage := "Failed to save message into Firestore: " + e)
    case None => s.(chatText := "")
  }

  /** The two message writes are mirror images: one identical record,
      stored under the sender's and under the recipient's namespace, which
      reads back in both as the message from the signed-in user to the
      partner with the typed text. */
  lemma MessageWritesMirrored(user: AuthUser, partner: ChatUsers.ChatUser, chatText: string,
                              now: Timestamp, senderDocId: string, recipientDocId: string)
    ensures var w := MessageWrites(Some(user), Some(partner), chatText, now, senderDocId, recipientDocId);
            && |w| == 2
            && w[0].path == ["messages", user.uid, partner.uid, senderDocId]
            && w[1].path == ["messages", partner.uid, user.uid, recipientDocId]
            && w[0].data == w[1].data
            && ChatMessages.Decode(senderDocId, w[0].data) == ChatMessages.ChatMessage(senderDocId, user.uid, partner.uid, chatText)
            && ChatMessages.Decode(recipientDocId, w[1].data) == ChatMessages.ChatMessage(recipientDocId, user.uid, partner.uid, chatText)
  {
  }

  /** The two recent-message entries: each owner's entry is keyed by the
      other participant, both read back with the same text, sender and
      recipient; the sender's shows the partner's email and image, the
      recipient's the sender's email and profile image (or `""` for a
      missing one). */
  lemma RecentWritesKeyedByPartner(user: AuthUser, partner: ChatUsers.ChatUser,
                                   currentProfile: Option<ChatUsers.ChatUser>, chatText: string,
                                   clock: SendClock, now: Timestamp)
    ensures var w := RecentWrites(Some(user), Some(partner), currentProfile, chatText, clock);
            && |w| == 2
            && w[0].path == ["recent_messages", user.uid, "messages", partner.uid]
            && w[1].path == ["recent_messages", partner.uid, "messages", user.uid]
            && RecentMessages.Decode(partner.uid, w[0].data, now)
               == RecentMessages.RecentMessage(partner.uid, chatText, partner.email, user.uid, partner.uid,
                                               partner.profileImageUrl, clock.senderRecent)
            && RecentMessages.Decode(user.uid, w[1].data, now)
               == RecentMessages.RecentMessage(user.uid, chatText, user.email.GetOr(""), user.uid, partner.uid,
                                               if currentProfile.Some? then currentProfile.value.profileImageUrl else "",
                                               clock.recipientRecent)
  {
  }

  /** What a saved send writes, field by field: the message copies carry
      the text, sender and partner of the tap; the recent-message entries
      carry those of the completion. */
  lemma SendWritesReadBothStates(atTap: ChatLog.ChatLogState, user: AuthUser,
                                 atSave: ChatLog.ChatLogState, userAtSave: AuthUser,
                                 currentProfile: Option<ChatUsers.ChatUser>, clock: SendClock,
                                 senderDocId: string, recipientDocId: string)
    requires atTap.chatUser.Some? && atSave.chatUser.Some?
    ensures var w := SendWrites(atTap, Some(user), atSave, Some(userAtSave), currentProfile, clock,
                                senderDocId, recipientDocId, true);
            && |w| == 4
            && (forall i :: 0 <= i < 2 ==>
                  && TextKey in w[i].data && w[i].data[TextKey] == Str(atTap.chatText)
                  && FromIdKey in w[i].data && w[i].data[FromIdKey] == Str(user.uid)
                  && ToIdKey in w[i].data && w[i].data[ToIdKey] == Str(atTap.chatUser.value.uid))
            && (forall i :: 2 <= i < 4 ==>
                  && TextKey in w[i].data && w[i].data[TextKey] == Str(atSave.chatText)
                  && FromIdKey in w[i].data && w[i].data[FromIdKey] == Str(userAtSave.uid)
                  && ToIdKey in w[i].data && w[i].data[ToIdKey] == Str(atSave.chatUser.value.uid))
  {
  }

  /** When nothing changed between the tap and the completion, a saved
      send writes four documents which all carry the same text, the user
      as fromId and the partner as toId. */
  lemma SavedSendWritesFour(atTap: ChatLog.ChatLogState, atSave: ChatLog.ChatLogState, user: AuthUser,
                            currentProfile: Option<ChatUsers.ChatUser>, clock: SendClock,
                            senderDocId: string, recipientDocId: string)
    requires atTap.chatUser.Some?
    requires atSave.chatText == atTap.chatText && atSave.chatUser == atTap.chatUser
    ensures var w := SendWrites(atTap, Some(user), atSave, Some(user), currentProfile, clock,
                                senderDocId, recipientDocId, true);
            && |w| == 4
            && (forall i :: 0 <= i < 4 ==> TextKey in w[i].data && w[i].data[TextKey] == Str(atTap.chatText))
            && (forall i :: 0 <= i < 4 ==> FromIdKey in w[i].data && w[i].data[FromIdKey] == Str(user.uid))
            && (forall i :: 0 <= i < 4 ==> ToIdKey in w[i].data && w[i].data[ToIdKey] == Str(atTap.chatUser.value.uid))
  {
    SendWritesReadBothStates(atTap, user, atSave, user, currentProfile, clock, senderDocId, recipientDocId);
  }

  /** Send tapped twice before the first completion: the first completion
      writes its entries and clears the input field, so the second
      completion finds `chatText == ""`. The second send's message copies
      carry the typed text, but its recent-message entries, which replace
      the first send's under the same document ids, carry `""`. Each send
      gets its own store-generated ids for its message copies. */
  lemma DoubleTapRecentTextCleared(s: ChatLog.ChatLogState, user: AuthUser,
                                   currentProfile: Option<ChatUsers.ChatUser>, first: SendClock, second: SendClock,
                                   firstSenderDocId: string, firstRecipientDocId: string,
                                   secondSenderDocId: string, secondRecipientDocId: string)
    requires s.chatUser.Some?
    ensures var w1 := SendWrites(s, Some(user), s, Some(user), currentProfile, first,
                                 firstSenderDocId, firstRecipientDocId, true);
            var w2 := SendWrites(s, Some(user), AfterSenderWrite(s, None), Some(user), currentProfile, second,
                                 secondSenderDocId, secondRecipientDocId, true);
            && |w1| == 4 && |w2| == 4
            && w2[2].path == w1[2].path && w2[3].path == w1[3].path
            && TextKey in w2[0].data && w2[0].data[TextKey] == Str(s.chatText)
            && TextKey in w2[2].data && w2[2].data[TextKey] == Str("")
            && TextKey in w2[3].data && w2[3].data[TextKey] == Str("")
  {
    SendWritesReadBothStates(s, user, AfterSenderWrite(s, None), user, currentProfile, second,
                             secondSenderDocId, secondRecipientDocId);
  }

  /** Opening another conversation before the completion sends the
      recent-message entries to the newly opened partner, while the
      message copies went to the partner of the tap. */
  lemma SwitchedConversationRecentEntries(atTap: ChatLog.ChatLogState, user: AuthUser, other: ChatUsers.ChatUser,
                                          currentProfile: Option<ChatUsers.ChatUser>, clock: SendClock,
                                          senderDocId: string, recipientDocId: string)
    requires atTap.chatUser.Some?
    ensures var atSave := atTap.(chatUser := Some(other));
            var w := SendWrites(atTap, Some(user), atSave, Some(user), currentProfile, clock,
                                senderDocId, recipientDocId, true);
            && |w| == 4
            && w[1].path == ["messages", atTap.chatUser.value.uid, user.uid, recipientDocId]
            && w[2].path == ["recent_messages", user.uid, "messages", other.uid]
            && w[3].path == ["recent_messages", other.uid, "messages", user.uid]
  {
  }
}
