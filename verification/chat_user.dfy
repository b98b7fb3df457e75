/** The `ChatUser` record: a user's profile as stored in the `users`
    collection, decoded from a document dictionary with `""` defaults. */
module ChatUsers {
  import opened Values

  /** The three keys `ChatUser.init(data:)` reads. */
  const UserKeys: set<string> := {UidKey, EmailKey, ProfileImageUrlKey}

  datatype ChatUser = ChatUser(uid: string, email: string, profileImageUrl: string) {
    /** `Identifiable.id`: a user is identified by its uid. */
    function Id(): string {
      uid
    }
  }

  /** `ChatUser.init(data:)`: total; every field is the string at its key,
      or `""` when the key is missing or holds a non-string. */
  function Decode(data: Dict): ChatUser {
    ChatUser(StringField(data, UidKey), StringField(data, EmailKey), StringField(data, ProfileImageUrlKey))
  }

  /** Decoding is total and reads each field as `init(data:)` does: the
      string at its key, or `""` when the key is missing or holds a
      non-string; the user's id is its uid. */
  lemma DecodeFields(data: Dict)
    ensures var u := Decode(data);
            && (HoldsString(data, UidKey, u.uid) || (LacksString(data, UidKey) && u.uid == ""))
            && (HoldsString(data, EmailKey, u.email) || (LacksString(data, EmailKey) && u.email == ""))
            && (HoldsString(data, ProfileImageUrlKey, u.profileImageUrl)
                || (LacksString(data, ProfileImageUrlKey) && u.profileImageUrl == ""))
            && u.Id() == u.uid
  {
  }

  /** The dictionary the app builds for a user profile: the one written to
      `users/<uid>` at sign-up and the one rebuilt from a recent-message
      entry when a conversation is opened. */
  function Encode(uid: string, email: string, profileImageUrl: string): (data: Dict)
    ensures data.Keys == UserKeys
  {
    map[EmailKey := Str(email), ProfileImageUrlKey := Str(profileImageUrl), UidKey := Str(uid)]
  }

  /** Decoding the profile dictionary gives back exactly the three strings
      it was built from. */
  lemma DecodeEncode(uid: string, email: string, profileImageUrl: string)
    ensures Decode(Encode(uid, email, profileImageUrl)) == ChatUser(uid, email, profileImageUrl)
  {
  }

  /** The empty dictionary decodes to the all-empty user. */
  lemma DecodeEmpty()
    ensures Decode(map[]) == ChatUser("", "", "")
  {
  }

  /** Keys other than the three user keys are ignored: changing or adding
      any other entry leaves the decoded user unchanged. */
  lemma DecodeIgnoresOtherKeys(data: Dict, key: string, v: Value)
    requires key !in UserKeys
    ensures Decode(data[key := v]) == Decode(data)
  {
  }
}
