/** What a live query delivers to its listener: document changes, grouped
    into snapshots, or an error. */
module Snapshots {
  import opened Values

  /** `DocumentChangeType`. */
  datatype ChangeType = Added | Modified | Removed

  /** One `DocumentChange`: its type, the changed document's id and data. */
  datatype DocumentChange = DocumentChange(kind: ChangeType, documentId: string, data: Dict)

  /** One call of a snapshot listener: either an error (described by its
      interpolated text) or a snapshot's `documentChanges`. A `nil`
      snapshot without an error behaves like one with no changes. */
  datatype SnapshotEvent = ListenFailed(description: string) | Snapshot(changes: seq<DocumentChange>)

  /** A live query: a collection path, ordered by one field. */
  datatype Query = Query(collectionPath: seq<string>, orderBy: string)

  /** The changes of all snapshots in a run of listener calls, in delivery
      order; error calls carry none. */
  function DeliveredChanges(events: seq<SnapshotEvent>): seq<DocumentChange>
  {
    if |events| == 0 then []
    else
      var last := events[|events| - 1];
      DeliveredChanges(events[..|events| - 1]) + (if last.Snapshot? then last.changes else [])
  }
}
