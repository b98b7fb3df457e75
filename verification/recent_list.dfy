/** The conversation list of `MainMessageViewModal`: a move-to-front list
    of recent-message entries, one per document id, kept up to date by a
    live query on `recent_messages/<uid>/messages`. */
module RecentList {
  import opened Values
  import opened RecentMessages
  import opened Snapshots

  /** The document ids present in a list. */
  function Ids(list: seq<RecentMessage>): set<string> {
    set e | e in list :: e.documentId
  }

  /** No two entries share a document id (what `ForEach` over an
      `Identifiable` list relies on). */
  predicate UniqueIds(list: seq<RecentMessage>) {
    forall i, j :: 0 <= i < j < |list| ==> list[i].documentId != list[j].documentId
  }

  /** `firstIndex(where: { $0.documentId == d })`. */
  function FirstIndex(list: seq<RecentMessage>, d: string): (r: Option<nat>)
    ensures r.None? <==> d !in Ids(list)
    ensures r.Some? ==> r.value < |list| && list[r.value].documentId == d
    ensures r.Some? ==> forall j :: 0 <= j < r.value ==> list[j].documentId != d
  {
    if |list| == 0 then None
    else if list[0].documentId == d then Some(0)
    else
      assert list == [list[0]] + list[1..];
      match FirstIndex(list[1..], d)
      case None => None
      case Some(i) => Some(i + 1)
  }

  /** The first entry with document id `d`, if any. */
  function Find(list: seq<RecentMessage>, d: string): Option<RecentMessage> {
    match FirstIndex(list, d)
    case Some(i) => Some(list[i])
    case None => None
  }

  /** The list with its first entry of id `d` removed (`remove(at:)` at
      the first index), or unchanged when `d` is absent. */
  function Remove(list: seq<RecentMessage>, d: string): (r: seq<RecentMessage>)
    ensures d in Ids(list) ==> |r| == |list| - 1
    ensures d !in Ids(list) ==> r == list
  {
    match FirstIndex(list, d)
    case None => list
    case Some(i) => list[..i] + list[i + 1..]
  }

  /** Reference definition: every entry whose id is not `d`, in order. */
  function Without(list: seq<RecentMessage>, d: string): seq<RecentMessage> {
    if |list| == 0 then []
    else if list[0].documentId == d then Without(list[1..], d)
    else [list[0]] + Without(list[1..], d)
  }

  /** The effect of one document change on the list: drop the existing
      entry with the same id, then insert the new one at index 0. */
  function Upsert(list: seq<RecentMessage>, entry: RecentMessage): (r: seq<RecentMessage>)
    ensures |r| > 0 && r[0] == entry
    ensures entry.documentId in Ids(list) ==> |r| == |list|
    ensures entry.documentId !in Ids(list) ==> r == [entry] + list
  {
    [entry] + Remove(list, entry.documentId)
  }

  /** The change handler of `fetchRecentMessages`, for one change: the
      change type is not inspected. */
  function ApplyChange(list: seq<RecentMessage>, change: DocumentChange, now: Timestamp): seq<RecentMessage> {
    Upsert(list, Decode(change.documentId, change.data, now))
  }

  /** The document ids a batch of changes touches. */
  function ChangeIds(changes: seq<DocumentChange>): set<string> {
    set c | c in changes :: c.documentId
  }

  /** `documentChanges.forEach`: every change of the batch, in order. */
  function ApplyChanges(list: seq<RecentMessage>, changes: seq<DocumentChange>, now: Timestamp): (r: seq<RecentMessage>)
    ensures |changes| > 0 ==> |r| > 0 && r[0] == Decode(changes[|changes| - 1].documentId, changes[|changes| - 1].data, now)
    ensures |list| <= |r| <= |list| + |changes|
  {
    if |changes| == 0 then list
    else ApplyChange(ApplyChanges(list, changes[..|changes| - 1], now), changes[|changes| - 1], now)
  }

  /** The ids of a list with a new head. */
  lemma IdsCons(head: RecentMessage, tail: seq<RecentMessage>)
    ensures Ids([head] + tail) == {head.documentId} + Ids(tail)
  {
  }

  // ---------------------------------------------------------------------
  // Facts about removal and upsert of a single entry

  /** `Remove` unfolds like a recursive removal of the first match. */
  lemma RemoveUnfold(list: seq<RecentMessage>, d: string)
    requires |list| > 0
    ensures Remove(list, d) == if list[0].documentId == d then list[1..] else [list[0]] + Remove(list[1..], d)
  {
    if list[0].documentId != d {
      assert list == [list[0]] + list[1..];
      match FirstIndex(list[1..], d)
      case None => {}
      case Some(i) => {
        assert list[..i + 1] + list[i + 2..] == [list[0]] + (list[1..][..i] + list[1..][i + 1..]);
      }
    }
  }

  /** An upsert adds the entry's id to the ids of the list. */
  lemma UpsertIds(list: seq<RecentMessage>, entry: RecentMessage)
    ensures Ids(Upsert(list, entry)) == Ids(list) + {entry.documentId}
  {
  }

  /** Entries of other ids are untouched by removing an entry of id `d`. */
  lemma {:induction false} WithoutRemove(list: seq<RecentMessage>, d: string)
    ensures Without(Remove(list, d), d) == Without(list, d)
  {
    if |list| > 0 {
      RemoveUnfold(list, d);
      if list[0].documentId != d {
        WithoutRemove(list[1..], d);
        assert ([list[0]] + Remove(list[1..], d))[1..] == Remove(list[1..], d);
      }
    }
  }

  /** Removing the only entry of id `d` is the same as filtering `d` out. */
  lemma {:induction false} RemoveUnique(list: seq<RecentMessage>, d: string)
    requires UniqueIds(list)
    ensures Remove(list, d) == Without(list, d)
  {
    if |list| > 0 {
      RemoveUnfold(list, d);
      if list[0].documentId == d {
        forall j | 0 <= j < |list[1..]| ensures list[1..][j].documentId != d {
          assert list[1..][j] == list[j + 1];
        }
        WithoutAbsent(list[1..], d);
      } else {
        RemoveUnique(list[1..], d);
      }
    }
  }

  /** Filtering out an id that no entry carries changes nothing. */
  lemma {:induction false} WithoutAbsent(list: seq<RecentMessage>, d: string)
    requires forall j :: 0 <= j < |list| ==> list[j].documentId != d
    ensures Without(list, d) == list
  {
    if |list| > 0 {
      WithoutAbsent(list[1..], d);
      assert list == [list[0]] + list[1..];
    }
  }

  /** A list with a new head has unique ids exactly when the tail has and
      the head's id does not occur in it. */
  lemma ConsUnique(head: RecentMessage, tail: seq<RecentMessage>)
    ensures UniqueIds([head] + tail) <==> head.documentId !in Ids(tail) && UniqueIds(tail)
  {
    var r := [head] + tail;
    if head.documentId !in Ids(tail) && UniqueIds(tail) {
      forall i, j | 0 <= i < j < |r| ensures r[i].documentId != r[j].documentId {
        assert r[j] == tail[j - 1];
        if i == 0 {
          assert tail[j - 1] in tail;
        } else {
          assert r[i] == tail[i - 1];
        }
      }
    }
    if UniqueIds(r) {
      forall i, j | 0 <= i < j < |tail| ensures tail[i].documentId != tail[j].documentId {
        assert r[i + 1] == tail[i] && r[j + 1] == tail[j];
      }
      forall e | e in tail ensures e.documentId != head.documentId {
        var k :| 0 <= k < |tail| && tail[k] == e;
        assert r[0] == head && r[k + 1] == e;
        assert r[0].documentId != r[k + 1].documentId;
      }
    }
  }

  /** Filtering keeps ids unique, and removes exactly the id `d`. */
  lemma {:induction false} WithoutUnique(list: seq<RecentMessage>, d: string)
    requires UniqueIds(list)
    ensures UniqueIds(Without(list, d))
    ensures Ids(Without(list, d)) == Ids(list) - {d}
  {
    if |list| > 0 {
      var tail := list[1..];
      assert list == [list[0]] + tail;
      ConsUnique(list[0], tail);
      IdsCons(list[0], tail);
      WithoutUnique(tail, d);
      if list[0].documentId != d {
        var w := Without(tail, d);
        IdsCons(list[0], w);
        ConsUnique(list[0], w);
      }
    }
  }

  /** Upserting into a list without duplicate ids leaves none: the new
      entry goes to the front and the old entry of that id is gone, while
      every other entry keeps its relative order. */
  lemma UpsertUnique(list: seq<RecentMessage>, entry: RecentMessage)
    requires UniqueIds(list)
    ensures UniqueIds(Upsert(list, entry))
    ensures Upsert(list, entry) == [entry] + Without(list, entry.documentId)
  {
    RemoveUnique(list, entry.documentId);
    WithoutUnique(list, entry.documentId);
    ConsUnique(entry, Without(list, entry.documentId));
  }

  /** Whatever the list, an upsert does not disturb the entries of other
      ids: they keep their relative order and their contents. */
  lemma UpsertKeepsOthers(list: seq<RecentMessage>, entry: RecentMessage)
    ensures Without(Upsert(list, entry), entry.documentId) == Without(list, entry.documentId)
  {
    WithoutRemove(list, entry.documentId);
  }

  /** Looking up the first entry of id `d` skips an entry of another id. */
  lemma FindCons(head: RecentMessage, tail: seq<RecentMessage>, d: string)
    requires head.documentId != d
    ensures Find([head] + tail, d) == Find(tail, d)
  {
  }

  /** Removing the entry of id `x` does not affect what is found for `d`. */
  lemma {:induction false} FindRemove(list: seq<RecentMessage>, x: string, d: string)
    requires x != d
    ensures Find(Remove(list, x), d) == Find(list, d)
  {
    if |list| > 0 {
      RemoveUnfold(list, x);
      if list[0].documentId == x {
        FindCons(list[0], list[1..], d);
        assert list == [list[0]] + list[1..];
      } else if list[0].documentId == d {
        assert Remove(list, x)[0] == list[0];
      } else {
        FindRemove(list[1..], x, d);
        FindCons(list[0], Remove(list[1..], x), d);
        FindCons(list[0], list[1..], d);
        assert list == [list[0]] + list[1..];
      }
    }
  }

  /** After an upsert, the entry found for the upserted id is the new one,
      and the entry found for every other id is the one found before. */
  lemma FindUpsert(list: seq<RecentMessage>, entry: RecentMessage, d: string)
    ensures Find(Upsert(list, entry), d) == if d == entry.documentId then Some(entry) else Find(list, d)
  {
    if d != entry.documentId {
      FindCons(entry, Remove(list, entry.documentId), d);
      FindRemove(list, entry.documentId, d);
    }
  }

  // ---------------------------------------------------------------------
  // Facts about batches of changes

  /** The last change in a batch with document id `d`, if any. */
  function LastChangeFor(changes: seq<DocumentChange>, d: string): Option<DocumentChange> {
    if |changes| == 0 then None
    else if changes[|changes| - 1].documentId == d then Some(changes[|changes| - 1])
    else LastChangeFor(changes[..|changes| - 1], d)
  }

  /** The ids a batch touches: those of all but its last change, and the
      last change's. */
  lemma ChangeIdsInit(changes: seq<DocumentChange>)
    requires |changes| > 0
    ensures ChangeIds(changes) == ChangeIds(changes[..|changes| - 1]) + {changes[|changes| - 1].documentId}
  {
  }

  /** A batch adds exactly the ids it touches to the list. */
  lemma {:induction false} ApplyChangesIds(list: seq<RecentMessage>, changes: seq<DocumentChange>, now: Timestamp)
    ensures Ids(ApplyChanges(list, changes, now)) == Ids(list) + ChangeIds(changes)
  {
    if |changes| > 0 {
      var n := |changes| - 1;
      var prefix := changes[..n];
      var before := ApplyChanges(list, prefix, now);
      var entry := Decode(changes[n].documentId, changes[n].data, now);
      ApplyChangesIds(list, prefix, now);
      UpsertIds(before, entry);
      ChangeIdsInit(changes);
    }
  }

  /** Processing a batch keeps the list free of duplicate ids. */
  lemma {:induction false} ApplyChangesUnique(list: seq<RecentMessage>, changes: seq<DocumentChange>, now: Timestamp)
    requires UniqueIds(list)
    ensures UniqueIds(ApplyChanges(list, changes, now))
  {
    if |changes| > 0 {
      var n := |changes| - 1;
      ApplyChangesUnique(list, changes[..n], now);
      UpsertUnique(ApplyChanges(list, changes[..n], now), Decode(changes[n].documentId, changes[n].data, now));
    }
  }

  /** Latest change wins: after a batch, the entry for `d` carries the data
      of the last change to `d` in the batch, or is the entry found before
      the batch when the batch does not touch `d`. */
  lemma {:induction false} ApplyChangesFind(list: seq<RecentMessage>, changes: seq<DocumentChange>, now: Timestamp, d: string)
    ensures Find(ApplyChanges(list, changes, now), d)
            == match LastChangeFor(changes, d)
               case Some(c) => Some(Decode(c.documentId, c.data, now))
               case None => Find(list, d)
  {
    if |changes| > 0 {
      var n := |changes| - 1;
      ApplyChangesFind(list, changes[..n], now, d);
      FindUpsert(ApplyChanges(list, changes[..n], now), Decode(changes[n].documentId, changes[n].data, now), d);
    }
  }

  /** Appending one change to a batch applies it last. */
  lemma ApplyChangesSnoc(list: seq<RecentMessage>, changes: seq<DocumentChange>, change: DocumentChange, now: Timestamp)
    ensures ApplyChanges(list, changes + [change], now) == ApplyChange(ApplyChanges(list, changes, now), change, now)
  {
    var c := changes + [change];
    assert c[..|c| - 1] == changes;
  }

  /** The first `i + 1` changes of a batch are the first `i` followed by
      change `i`. */
  lemma ApplyChangesStep(list: seq<RecentMessage>, changes: seq<DocumentChange>, i: nat, now: Timestamp)
    requires i < |changes|
    ensures ApplyChanges(list, changes[..i + 1], now) == ApplyChange(ApplyChanges(list, changes[..i], now), changes[i], now)
  {
    var p := changes[..i + 1];
    assert p[..|p| - 1] == changes[..i];
  }

  /** Two batches delivered one after the other have the same effect as
      one batch holding both. */
  lemma {:induction false} ApplyChangesConcat(list: seq<RecentMessage>, a: seq<DocumentChange>, b: seq<DocumentChange>, now: Timestamp)
    ensures ApplyChanges(list, a + b, now) == ApplyChanges(ApplyChanges(list, a, now), b, now)
  {
    if |b| > 0 {
      var n := |b| - 1;
      assert b == b[..n] + [b[n]];
      assert a + b == (a + b[..n]) + [b[n]];
      ApplyChangesSnoc(list, a + b[..n], b[n], now);
      ApplyChangesConcat(list, a, b[..n], now);
      ApplyChangesSnoc(ApplyChanges(list, a, now), b[..n], b[n], now);
    } else {
      assert a + b == a;
    }
  }

  /** The change type plays no part: two batches with the same document
      ids and data, in the same order, give the same list whatever their
      change types. */
  lemma {:induction false} ApplyChangesIgnoresKind(list: seq<RecentMessage>, a: seq<DocumentChange>, b: seq<DocumentChange>, now: Timestamp)
    requires |a| == |b|
    requires forall i :: 0 <= i < |a| ==> a[i].documentId == b[i].documentId && a[i].data == b[i].data
    ensures ApplyChanges(list, a, now) == ApplyChanges(list, b, now)
  {
    if |a| > 0 {
      ApplyChangesIgnoresKind(list, a[..|a| - 1], b[..|b| - 1], now);
    }
  }

  /** The entries of a batch, newest (last delivered) first. */
  function NewestFirst(changes: seq<DocumentChange>, now: Timestamp): seq<RecentMessage> {
    if |changes| == 0 then []
    else
      var last := changes[|changes| - 1];
      [Decode(last.documentId, last.data, now)] + NewestFirst(changes[..|changes| - 1], now)
  }

  /** In a batch with distinct ids, the last change's id is not touched by
      the changes before it. */
  lemma LastIdFresh(changes: seq<DocumentChange>)
    requires |changes| > 0
    requires forall i, j :: 0 <= i < j < |changes| ==> changes[i].documentId != changes[j].documentId
    ensures changes[|changes| - 1].documentId !in ChangeIds(changes[..|changes| - 1])
  {
  }

  /** From an empty list, a batch whose changes have distinct ids yields
      their entries newest-first: the reverse of the change order. */
  lemma {:induction false} ApplyDistinctFromEmpty(changes: seq<DocumentChange>, now: Timestamp)
    requires forall i, j :: 0 <= i < j < |changes| ==> changes[i].documentId != changes[j].documentId
    ensures ApplyChanges([], changes, now) == NewestFirst(changes, now)
  {
    if |changes| > 0 {
      var n := |changes| - 1;
      var prefix := changes[..n];
      ApplyDistinctFromEmpty(prefix, now);
      LastIdFresh(changes);
      ApplyChangesIds([], prefix, now);
      var before := ApplyChanges([], prefix, now);
      var entry := Decode(changes[n].documentId, changes[n].data, now);
      assert entry.documentId !in Ids(before);
      assert ApplyChanges([], changes, now) == Upsert(before, entry) == [entry] + before;
      assert NewestFirst(changes, now) == [entry] + NewestFirst(prefix, now);
    }
  }

  // ---------------------------------------------------------------------
  // The view model's listener

  /** The live query `fetchRecentMessages` installs for user `uid`. */
  function RecentQuery(uid: string): Query {
    Query(["recent_messages", uid, "messages"], TimestampKey)
  }

  /** The part of `MainMessageViewModal` the conversation list lives in. */
  datatype RecentMessagesState = RecentMessagesState(
    errorMessage: string,
    recentMessages: seq<RecentMessage>,
    listener: Option<Query>)

  /** `fetchRecentMessages()`: without a signed-in user nothing happens;
      otherwise the old listener is replaced by one on the user's recent
      messages and the list starts over from empty. */
  function FetchRecentMessages(s: RecentMessagesState, currentUid: Option<string>): (r: RecentMessagesState)
    ensures currentUid.None? ==> r == s
    ensures currentUid.Some? ==> r.recentMessages == [] && r.listener == Some(RecentQuery(currentUid.value))
    ensures r.errorMessage == s.errorMessage
  {
    match currentUid
    case None => s
    case Some(uid) => s.(recentMessages := [], listener := Some(RecentQuery(uid)))
  }

  /** One call of the recent-messages snapshot listener. */
  function OnRecentSnapshot(s: RecentMessagesState, event: SnapshotEvent, now: Timestamp): (r: RecentMessagesState)
    ensures r.listener == s.listener
    ensures event.ListenFailed? ==> r.recentMessages == s.recentMessages
    ensures event.Snapshot? ==> r.errorMessage == s.errorMessage
  {
    match event
    case ListenFailed(description) =>
      s.(errorMessage := "Failed to listen for recent messages: " + description)
    case Snapshot(changes) =>
      s.(recentMessages := ApplyChanges(s.recentMessages, changes, now))
  }

  /** A run of listener calls, in delivery order. */
  function RunRecent(s: RecentMessagesState, events: seq<SnapshotEvent>, now: Timestamp): RecentMessagesState {
    if |events| == 0 then s
    else OnRecentSnapshot(RunRecent(s, events[..|events| - 1], now), events[|events| - 1], now)
  }

  /** Whatever the listener delivers, the list equals the result of
      applying every delivered change, in order, to an empty list. */
  lemma {:induction false} RunRecentFromEmpty(s: RecentMessagesState, events: seq<SnapshotEvent>, now: Timestamp)
    requires s.recentMessages == []
    ensures RunRecent(s, events, now).recentMessages == ApplyChanges([], DeliveredChanges(events), now)
  {
    if |events| > 0 {
      var n := |events| - 1;
      var earlier := DeliveredChanges(events[..n]);
      RunRecentFromEmpty(s, events[..n], now);
      var last := events[n];
      if last.Snapshot? {
        assert DeliveredChanges(events) == earlier + last.changes;
        ApplyChangesConcat([], earlier, last.changes, now);
      } else {
        assert DeliveredChanges(events) == earlier + [];
        assert earlier + [] == earlier;
      }
    }
  }

  /** After (re-)subscribing, however many snapshots arrive, the list holds
      at most one entry per document id, exactly the ids delivered so far,
      and the most recently delivered change at the front. */
  lemma SubscriptionKeepsOneEntryPerId(s: RecentMessagesState, uid: string, events: seq<SnapshotEvent>, now: Timestamp)
    ensures var list := RunRecent(FetchRecentMessages(s, Some(uid)), events, now).recentMessages;
            var delivered := DeliveredChanges(events);
            && UniqueIds(list)
            && Ids(list) == ChangeIds(delivered)
            && (|delivered| > 0 ==> |list| > 0 && list[0] == Decode(delivered[|delivered| - 1].documentId, delivered[|delivered| - 1].data, now))
  {
    var start := FetchRecentMessages(s, Some(uid));
    RunRecentFromEmpty(start, events, now);
    ApplyChangesUnique([], DeliveredChanges(events), now);
    ApplyChangesIds([], DeliveredChanges(events), now);
  }

  /** The body of the conversation-list `forEach` closure, for one
      change: `firstIndex(where:)`, `remove(at:)`, `insert(_:at: 0)`. */
  method ProcessRecentChange(list: seq<RecentMessage>, change: DocumentChange, now: Timestamp)
    returns (r: seq<RecentMessage>)
    ensures r == ApplyChange(list, change, now)
    ensures |r| > 0 && r[0] == Decode(change.documentId, change.data, now)
    ensures Ids(r) == Ids(list) + {change.documentId}
    ensures UniqueIds(list) ==> UniqueIds(r) && r[1..] == Without(list, change.documentId)
  {
    var entry := Decode(change.documentId, change.data, now);
    var index := FirstIndex(list, change.documentId);
    r := list;
    if index.Some? {
      r := list[..index.value] + list[index.value + 1..];
    }
    r := [entry] + r;
    UpsertIds(list, entry);
    if UniqueIds(list) {
      UpsertUnique(list, entry);
    }
  }

  /** The conversation-list `forEach` loop: processes one snapshot's
      changes in order. */
  method ProcessRecentChanges(list: seq<RecentMessage>, changes: seq<DocumentChange>, now: Timestamp)
    returns (r: seq<RecentMessage>)
    ensures r == ApplyChanges(list, changes, now)
    ensures UniqueIds(list) ==> UniqueIds(r)
    ensures Ids(r) == Ids(list) + ChangeIds(changes)
  {
    r := list;
    var i := 0;
    while i < |changes|
      invariant 0 <= i <= |changes|
      invariant r == ApplyChanges(list, changes[..i], now)
    {
      r := ProcessRecentChange(r, changes[i], now);
      ApplyChangesStep(list, changes, i, now);
      i := i + 1;
    }
    assert changes[..|changes|] == changes;
    ApplyChangesIds(list, changes, now);
    if UniqueIds(list) {
      ApplyChangesUnique(list, changes, now);
    }
  }
}
