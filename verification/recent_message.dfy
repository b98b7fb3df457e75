/** The `RecentMessage` record: one row of the conversation list, decoded
    from a document of `recent_messages/<owner>/messages`. */
module RecentMessages {
  import opened Values

  datatype RecentMessage = RecentMessage(
    documentId: string,
    text: string,
    email: string,
    fromId: string,
    toId: string,
    profileImageUrl: string,
    timestamp: Timestamp)
  {
    /** `Identifiable.id`: an entry is identified by its document id. */
    function Id(): string {
      documentId
    }
  }

  /** `RecentMessage.init(documentId:data:)`: total; the id is the
      document's id, each string field is the string at its key or `""`,
      and the timestamp is the stored one or, failing that, `now` (the
      wall-clock reading `Timestamp(date: Date())` takes). */
  function Decode(documentId: string, data: Dict, now: Timestamp): RecentMessage {
    var stamp := if TimestampKey in data && data[TimestampKey].Stamp? then data[TimestampKey].t else now;
    RecentMessage(documentId, StringField(data, TextKey), StringField(data, EmailKey),
                  StringField(data, FromIdKey), StringField(data, ToIdKey),
                  StringField(data, ProfileImageUrlKey), stamp)
  }

  /** Decoding is total and reads each field as `init(documentId:data:)`
      does: the id is the document's id, each string field is the string
      at its key or `""` when the key is missing or holds a non-string,
      and the timestamp is the stored one or the clock reading `now`. */
  lemma DecodeFields(documentId: string, data: Dict, now: Timestamp)
    ensures var m := Decode(documentId, data, now);
            && m.Id() == documentId
            && (HoldsString(data, TextKey, m.text) || (LacksString(data, TextKey) && m.text == ""))
            && (HoldsString(data, FromIdKey, m.fromId) || (LacksString(data, FromIdKey) && m.fromId == ""))
            && (HoldsString(data, ToIdKey, m.toId) || (LacksString(data, ToIdKey) && m.toId == ""))
            && (HoldsString(data, ProfileImageUrlKey, m.profileImageUrl)
                || (LacksString(data, ProfileImageUrlKey) && m.profileImageUrl == ""))
            && (HoldsString(data, EmailKey, m.email) || (LacksString(data, EmailKey) && m.email == ""))
            && ((TimestampKey in data && data[TimestampKey] == Stamp(m.timestamp))
                || ((TimestampKey !in data || !data[TimestampKey].Stamp?) && m.timestamp == now))
  {
  }

  /** The dictionary `persistRecentMessage` writes for one owner. The
      partner's image and email are `Value`s because the recipient's copy
      stores optionals that may be `nil`. */
  function Encode(timestamp: Timestamp, text: string, fromId: string, toId: string,
                  profileImageUrl: Value, email: Value): (data: Dict)
    ensures data.Keys == {TimestampKey, TextKey, FromIdKey, ToIdKey, ProfileImageUrlKey, EmailKey}
  {
    map[TimestampKey := Stamp(timestamp), TextKey := Str(text), FromIdKey := Str(fromId),
        ToIdKey := Str(toId), ProfileImageUrlKey := profileImageUrl, EmailKey := email]
  }

  /** A written recent-message entry reads back with its own timestamp (the
      clock is not consulted), its text, sender and recipient, and the
      image and email strings it carried (`""` for a stored `nil`). */
  lemma DecodeEncode(documentId: string, timestamp: Timestamp, text: string, fromId: string,
                     toId: string, profileImageUrl: Value, email: Value, now: Timestamp)
    ensures Decode(documentId, Encode(timestamp, text, fromId, toId, profileImageUrl, email), now)
            == RecentMessage(documentId, text, StringOr(email), fromId, toId, StringOr(profileImageUrl), timestamp)
  {
  }
}
