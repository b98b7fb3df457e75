/** The `ChatMessage` record: one message of a conversation, decoded from
    a document of `messages/<owner>/<partner>`. */
module ChatMessages {
  import opened Values

  datatype ChatMessage = ChatMessage(documentId: string, fromId: string, toId: string, text: string) {
    /** `Identifiable.id`: a message is identified by its document id. */
    function Id(): string {
      documentId
    }
  }

  /** `ChatMessage.init(documentId:data:)`: total; the id is the document's
      id and each string field is the string at its key, or `""` when the
      key is missing or holds a non-string. The timestamp is not kept. */
  function Decode(documentId: string, data: Dict): ChatMessage {
    ChatMessage(documentId, StringField(data, FromIdKey), StringField(data, ToIdKey), StringField(data, TextKey))
  }

  /** Decoding is total and reads each field as `init(documentId:data:)`
      does: the id is the document's id and each string field is the
      string at its key, or `""` when the key is missing or holds a
      non-string. */
  lemma DecodeFields(documentId: string, data: Dict)
    ensures var m := Decode(documentId, data);
            && m.Id() == documentId
            && (HoldsString(data, FromIdKey, m.fromId) || (LacksString(data, FromIdKey) && m.fromId == ""))
            && (HoldsString(data, ToIdKey, m.toId) || (LacksString(data, ToIdKey) && m.toId == ""))
            && (HoldsString(data, TextKey, m.text) || (LacksString(data, TextKey) && m.text == ""))
  {
  }

  /** The `messageData` dictionary `handleSend` writes for a new message. */
  function Encode(fromId: string, toId: string, text: string, timestamp: Timestamp): (data: Dict)
    ensures data.Keys == {FromIdKey, ToIdKey, TextKey, TimestampKey}
    ensures data[TimestampKey] == Stamp(timestamp)
  {
    map[FromIdKey := Str(fromId), ToIdKey := Str(toId), TextKey := Str(text), TimestampKey := Stamp(timestamp)]
  }

  /** A written message reads back, under whatever document id the store
      assigned, with the sender, recipient and text it was written with. */
  lemma DecodeEncode(documentId: string, fromId: string, toId: string, text: string, timestamp: Timestamp)
    ensures Decode(documentId, Encode(fromId, toId, text, timestamp)) == ChatMessage(documentId, fromId, toId, text)
  {
  }
}
