/** What the conversation list derives from an entry: whose conversation
    it is (the partner), the profile opened when the entry is tapped, and
    the display name with the `@gmail.com` domain stripped. */
module ConversationList {
  import opened Values
  import ChatUsers
  import opened RecentMessages
  import RecentList
  import SendPlan
  import Snapshots

  /** The partner of an entry as seen by the signed-in user: the recipient
      when the user sent the last message, the sender otherwise (also
      when nobody is signed in). */
  function PartnerId(currentUid: Option<string>, entry: RecentMessage): (r: string)
    ensures r == entry.toId || r == entry.fromId
    ensures currentUid == Some(entry.fromId) ==> r == entry.toId
    ensures currentUid != Some(entry.fromId) ==> r == entry.fromId
  {
    if currentUid == Some(entry.fromId) then entry.toId else entry.fromId
  }

  /** Tapping an entry: the partner profile is rebuilt by decoding a
      dictionary of the entry's email and image and the partner id; it
      carries exactly those three strings. */
  function ChatPartner(currentUid: Option<string>, entry: RecentMessage): (u: ChatUsers.ChatUser)
    ensures u == ChatUsers.ChatUser(PartnerId(currentUid, entry), entry.email, entry.profileImageUrl)
    ensures u.Id() == PartnerId(currentUid, entry)
  {
    var uid := PartnerId(currentUid, entry);
    ChatUsers.DecodeEncode(uid, entry.email, entry.profileImageUrl);
    ChatUsers.Decode(ChatUsers.Encode(uid, entry.email, entry.profileImageUrl))
  }

  /** Whoever owns an entry written by a send, the partner the list shows
      for it is the id it is stored under: the recipient in the sender's
      list, the sender in the recipient's list (even for a note to
      oneself). */
  lemma PartnerIsDocumentKey(user: SendPlan.AuthUser, partner: ChatUsers.ChatUser,
                             currentProfile: Option<ChatUsers.ChatUser>, chatText: string,
                             clock: SendPlan.SendClock, now: Timestamp)
    ensures var w := SendPlan.RecentWrites(Some(user), Some(partner), currentProfile, chatText, clock);
            && |w| == 2
            && PartnerId(Some(user.uid), Decode(partner.uid, w[0].data, now)) == partner.uid
            && PartnerId(Some(partner.uid), Decode(user.uid, w[1].data, now)) == user.uid
  {
  }

  /** Reopening a conversation from the sender's own list gives back the
      very profile the message was sent to; from the recipient's list it
      gives the sender's uid, auth email and profile image. */
  lemma ReopenFromRecentEntry(user: SendPlan.AuthUser, partner: ChatUsers.ChatUser,
                              currentProfile: Option<ChatUsers.ChatUser>, chatText: string,
                              clock: SendPlan.SendClock, now: Timestamp)
    ensures var w := SendPlan.RecentWrites(Some(user), Some(partner), currentProfile, chatText, clock);
            && |w| == 2
            && ChatPartner(Some(user.uid), Decode(partner.uid, w[0].data, now)) == partner
            && ChatPartner(Some(partner.uid), Decode(user.uid, w[1].data, now))
               == ChatUsers.ChatUser(user.uid, user.email.GetOr(""),
                                     if currentProfile.Some? then currentProfile.value.profileImageUrl else "")
  {
  }

  /** When the sender's list sees its new entry arrive, that entry moves
      to the front, shows the message just sent and leads back to the
      partner; the list still holds one entry per partner, and the other
      conversations keep their order. */
  lemma SendUpdatesSenderList(list: seq<RecentMessage>, user: SendPlan.AuthUser, partner: ChatUsers.ChatUser,
                              currentProfile: Option<ChatUsers.ChatUser>, chatText: string,
                              clock: SendPlan.SendClock, now: Timestamp)
    requires RecentList.UniqueIds(list)
    ensures var w := SendPlan.RecentWrites(Some(user), Some(partner), currentProfile, chatText, clock);
            var r := RecentList.ApplyChange(list, Snapshots.DocumentChange(Snapshots.Modified, partner.uid, w[0].data), now);
            && RecentList.UniqueIds(r)
            && r[0].documentId == partner.uid
            && r[0].text == chatText
            && ChatPartner(Some(user.uid), r[0]) == partner
            && r[1..] == RecentList.Without(list, partner.uid)
  {
    var w := SendPlan.RecentWrites(Some(user), Some(partner), currentProfile, chatText, clock);
    SendPlan.RecentWritesKeyedByPartner(user, partner, currentProfile, chatText, clock, now);
    RecentList.UpsertUnique(list, Decode(partner.uid, w[0].data, now));
  }

  // ---------------------------------------------------------------------
  // Display names

  /** The domain the list hides from email addresses. */
  const GmailDomain: string := "@gmail.com"

  /** The domain occurs in `s` starting at index `i`. */
  predicate OccursAt(s: string, i: nat) {
    i + |GmailDomain| <= |s| && s[i..i + |GmailDomain|] == GmailDomain
  }

  /** `replacingOccurrences(of: "@gmail.com", with: "")`: every occurrence,
      found left to right without overlap, is removed. */
  function StripGmail(s: string): (r: string)
    ensures |r| <= |s|
    decreases |s|
  {
    if |s| == 0 then ""
    else if OccursAt(s, 0) then StripGmail(s[|GmailDomain|..])
    else [s[0]] + StripGmail(s[1..])
  }

  /** The name shown in the navigation bar: the signed-in user's email
      without the domain, or `""` before the profile has loaded. */
  function NavBarTitle(chatUser: Option<ChatUsers.ChatUser>): string {
    match chatUser
    case Some(u) => StripGmail(u.email)
    case None => ""
  }

  /** A Gmail address whose local part has no `@` shows as its local part. */
  lemma {:induction false} StripGmailAddress(local: string)
    requires '@' !in local
    ensures StripGmail(local + GmailDomain) == local
  {
    var s := local + GmailDomain;
    if |local| == 0 {
      assert s == GmailDomain;
      assert OccursAt(s, 0);
      assert s[|GmailDomain|..] == "";
    } else {
      assert s[0] == local[0] && GmailDomain[0] == '@';
      assert !OccursAt(s, 0);
      assert s[1..] == local[1..] + GmailDomain;
      StripGmailAddress(local[1..]);
      assert local == [local[0]] + local[1..];
    }
  }

  /** Removing an occurrence makes the name strictly shorter. */
  lemma {:induction false} StripGmailShrinks(s: string, i: nat)
    requires OccursAt(s, i)
    ensures |StripGmail(s)| < |s|
    decreases |s|
  {
    if !OccursAt(s, 0) {
      assert i > 0;
      assert s[1..][i - 1..i - 1 + |GmailDomain|] == s[i..i + |GmailDomain|];
      StripGmailShrinks(s[1..], i - 1);
    }
  }

  /** A name is shown unchanged exactly when the domain does not occur in
      it. */
  lemma {:induction false} StripGmailUnchanged(s: string)
    ensures StripGmail(s) == s <==> forall i: nat :: !OccursAt(s, i)
    decreases |s|
  {
    if exists i: nat :: OccursAt(s, i) {
      var i: nat :| OccursAt(s, i);
      StripGmailShrinks(s, i);
    } else if |s| > 0 {
      forall i: nat ensures !OccursAt(s[1..], i) {
        assert !OccursAt(s, i + 1);
        if i + 1 + |GmailDomain| <= |s| {
          assert s[1..][i..i + |GmailDomain|] == s[i + 1..i + 1 + |GmailDomain|];
        }
      }
      StripGmailUnchanged(s[1..]);
      assert s == [s[0]] + s[1..];
    }
  }

  /** The navigation bar shows nothing before the profile loads; a Gmail
      user whose local part has no `@` sees the local part; any other
      email is shown as it is exactly when it holds no `@gmail.com`, and
      shorter otherwise. */
  lemma NavBarTitleShown(u: ChatUsers.ChatUser)
    ensures NavBarTitle(None) == ""
    ensures forall local :: '@' !in local && u.email == local + GmailDomain ==> NavBarTitle(Some(u)) == local
    ensures NavBarTitle(Some(u)) == u.email <==> forall i: nat :: !OccursAt(u.email, i)
    ensures (exists i: nat :: OccursAt(u.email, i)) ==> |NavBarTitle(Some(u))| < |u.email|
  {
    forall local | '@' !in local && u.email == local + GmailDomain ensures NavBarTitle(Some(u)) == local {
      StripGmailAddress(local);
    }
    StripGmailUnchanged(u.email);
    if exists i: nat :: OccursAt(u.email, i) {
      var i: nat :| OccursAt(u.email, i);
      StripGmailShrinks(u.email, i);
    }
  }
}
