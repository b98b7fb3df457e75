/** The message log of `ChatLogViewModel`: cleared when a conversation is
    opened, then extended by the `.added` changes of a live query on
    `messages/<uid>/<partner>`. */
module ChatLog {
  import opened Values
  import opened ChatMessages
  import ChatUsers
  import opened Snapshots

  /** Reference definition: the messages of the `.added` changes of a
      batch, decoded, in change order. */
  function AddedMessages(changes: seq<DocumentChange>): seq<ChatMessage> {
    if |changes| == 0 then []
    else
      var last := changes[|changes| - 1];
      AddedMessages(changes[..|changes| - 1]) + (if last.kind == Added then [Decode(last.documentId, last.data)] else [])
  }

  /** One change on its own contributes its message when it is `.added`,
      and nothing when it is `.modified` or `.removed`. */
  lemma AddedMessagesSingle(change: DocumentChange)
    ensures AddedMessages([change]) == if change.kind == Added then [Decode(change.documentId, change.data)] else []
  {
  }

  /** Two batches contribute, one after the other, what the single batch
      holding both contributes. */
  lemma {:induction false} AddedMessagesConcat(a: seq<DocumentChange>, b: seq<DocumentChange>)
    ensures AddedMessages(a + b) == AddedMessages(a) + AddedMessages(b)
  {
    if |b| == 0 {
      assert a + b == a;
    } else {
      var n := |b| - 1;
      var ab := a + b;
      assert ab[..|ab| - 1] == a + b[..n];
      assert ab[|ab| - 1] == b[n];
      AddedMessagesConcat(a, b[..n]);
    }
  }

  /** Every message taken from a batch comes from one of its `.added`
      changes, and every `.added` change yields a message. */
  lemma {:induction false} AddedMessagesSource(changes: seq<DocumentChange>)
    ensures forall m :: m in AddedMessages(changes) ==>
              exists c :: c in changes && c.kind == Added && m == Decode(c.documentId, c.data)
    ensures forall c :: c in changes && c.kind == Added ==> Decode(c.documentId, c.data) in AddedMessages(changes)
  {
    if |changes| > 0 {
      var n := |changes| - 1;
      var prefix := changes[..n];
      AddedMessagesSource(prefix);
      var tail := if changes[n].kind == Added then [Decode(changes[n].documentId, changes[n].data)] else [];
      assert AddedMessages(changes) == AddedMessages(prefix) + tail;
      forall m | m in AddedMessages(changes)
        ensures exists c :: c in changes && c.kind == Added && m == Decode(c.documentId, c.data)
      {
        if m in AddedMessages(prefix) {
          var c :| c in prefix && c.kind == Added && m == Decode(c.documentId, c.data);
          var k :| 0 <= k < n && prefix[k] == c;
          assert changes[k] == c;
        } else {
          assert changes[n] in changes;
        }
      }
      forall c | c in changes && c.kind == Added ensures Decode(c.documentId, c.data) in AddedMessages(changes) {
        var k :| 0 <= k < |changes| && changes[k] == c;
        if k < n {
          assert prefix[k] == c;
        }
      }
    }
  }

  /** A batch with no `.added` change leaves the log as it is. */
  lemma {:induction false} NoAddedNoMessages(changes: seq<DocumentChange>)
    requires forall i :: 0 <= i < |changes| ==> changes[i].kind != Added
    ensures AddedMessages(changes) == []
  {
    if |changes| > 0 {
      NoAddedNoMessages(changes[..|changes| - 1]);
    }
  }

  /** The `documentChanges.forEach` loop of `fetchMessages`: appends the
      message of every `.added` change, in order, and never touches the
      messages already in the log. */
  method ProcessMessageChanges(chatMessages: seq<ChatMessage>, changes: seq<DocumentChange>)
    returns (r: seq<ChatMessage>)
    ensures |chatMessages| <= |r| <= |chatMessages| + |changes|
    ensures r[..|chatMessages|] == chatMessages
    ensures r == chatMessages + AddedMessages(changes)
  {
    r := chatMessages;
    var i := 0;
    while i < |changes|
      invariant 0 <= i <= |changes|
      invariant r == chatMessages + AddedMessages(changes[..i])
      invariant |r| <= |chatMessages| + i
    {
      var change := changes[i];
      if change.kind == Added {
        r := r + [Decode(change.documentId, change.data)];
      }
      assert changes[..i + 1][..i] == changes[..i];
      i := i + 1;
    }
    assert changes[..|changes|] == changes;
  }

  // ---------------------------------------------------------------------
  // The view model's listener

  /** The live query `fetchMessages` installs for the conversation of
      `fromId` with `toId`: the sender-side copy of the messages. */
  function MessagesQuery(fromId: string, toId: string): Query {
    Query(["messages", fromId, toId], TimestampKey)
  }

  /** The part of `ChatLogViewModel` the message log lives in. */
  datatype ChatLogState = ChatLogState(
    chatText: string,
    errorMessage: string,
    chatMessages: seq<ChatMessage>,
    chatUser: Option<ChatUsers.ChatUser>,
    listener: Option<Query>)

  /** `fetchMessages()`: without a signed-in user or a chat partner nothing
      happens; otherwise the log is cleared, the error text shows the uid
      (the synchronous part of `fetchCurrentUser`) and the old listener is
      replaced by one on this conversation. */
  function FetchMessages(s: ChatLogState, currentUid: Option<string>): (r: ChatLogState)
    ensures currentUid.None? || s.chatUser.None? ==> r == s
    ensures currentUid.Some? && s.chatUser.Some? ==>
              && r.chatMessages == []
              && r.listener == Some(MessagesQuery(currentUid.value, s.chatUser.value.uid))
              && r.errorMessage == currentUid.value
    ensures r.chatText == s.chatText && r.chatUser == s.chatUser
  {
    match (currentUid, s.chatUser)
    case (Some(fromId), Some(partner)) =>
      s.(chatMessages := [], errorMessage := fromId, listener := Some(MessagesQuery(fromId, partner.uid)))
    case _ => s
  }

  /** One call of the messages snapshot listener. */
  function OnMessagesSnapshot(s: ChatLogState, event: SnapshotEvent): (r: ChatLogState)
    ensures r.listener == s.listener && r.chatText == s.chatText && r.chatUser == s.chatUser
    ensures |s.chatMessages| <= |r.chatMessages| && r.chatMessages[..|s.chatMessages|] == s.chatMessages
    ensures event.ListenFailed? ==> r.chatMessages == s.chatMessages
  {
    match event
    case ListenFailed(description) =>
      s.(errorMessage := "Failed to listen for messages: " + description)
    case Snapshot(changes) =>
      s.(chatMessages := s.chatMessages + AddedMessages(changes))
  }

  /** A run of listener calls, in delivery order. */
  function RunMessages(s: ChatLogState, events: seq<SnapshotEvent>): ChatLogState {
    if |events| == 0 then s
    else OnMessagesSnapshot(RunMessages(s, events[..|events| - 1]), events[|events| - 1])
  }

  /** However many snapshots arrive, the log is the log before them
      followed by the messages of all delivered `.added` changes. */
  lemma {:induction false} RunMessagesAppends(s: ChatLogState, events: seq<SnapshotEvent>)
    ensures RunMessages(s, events).chatMessages == s.chatMessages + AddedMessages(DeliveredChanges(events))
  {
    if |events| == 0 {
      assert s.chatMessages + [] == s.chatMessages;
    } else {
      var n := |events| - 1;
      var earlier := DeliveredChanges(events[..n]);
      RunMessagesAppends(s, events[..n]);
      var last := events[n];
      if last.Snapshot? {
        assert DeliveredChanges(events) == earlier + last.changes;
        AddedMessagesConcat(earlier, last.changes);
      } else {
        assert DeliveredChanges(events) == earlier + [];
        assert earlier + [] == earlier;
      }
    }
  }

  /** After opening a conversation, the log holds exactly the messages of
      the `.added` changes delivered since: nothing from an earlier
      conversation survives. */
  lemma OpenedLogHoldsOnlyDelivered(s: ChatLogState, uid: string, events: seq<SnapshotEvent>)
    requires s.chatUser.Some?
    ensures RunMessages(FetchMessages(s, Some(uid)), events).chatMessages == AddedMessages(DeliveredChanges(events))
  {
    RunMessagesAppends(FetchMessages(s, Some(uid)), events);
    assert [] + AddedMessages(DeliveredChanges(events)) == AddedMessages(DeliveredChanges(events));
  }
}
