/** The write side of the command inbox: the one transition the relay may
    perform, RECEIVED to ENQUEUED, guarded so that a retried cycle cannot
    enqueue the same command twice. */
module CommandInboxWriteRepository {
  import opened Schema

  /** `markAsEnqueued`: succeeds exactly when the row exists and is RECEIVED,
      and then the row is ENQUEUED with `updated_at` stamped; otherwise the
      table is unchanged. Only the row with the given id can change. */
  function MarkEnqueued(rows: InboxRows, id: string, now: int): (r: (bool, InboxRows))
    ensures r.0 <==> id in rows && rows[id].status == Received
    ensures r.0 ==> r.1 == rows[id := rows[id].(status := Enqueued, updatedAt := now)]
    ensures !r.0 ==> r.1 == rows
  {
    if id in rows && rows[id].status == Received then
      (true, rows[id := rows[id].(status := Enqueued, updatedAt := now)])
    else (false, rows)
  }

  /** Calling it twice gives true then false, with one effective transition. */
  lemma EnqueueIdempotent(rows: InboxRows, id: string, now: int, later: int)
    requires id in rows && rows[id].status == Received
    ensures MarkEnqueued(rows, id, now).0
    ensures !MarkEnqueued(MarkEnqueued(rows, id, now).1, id, later).0
    ensures MarkEnqueued(MarkEnqueued(rows, id, now).1, id, later).1 == MarkEnqueued(rows, id, now).1
  {
  }

  /** The command inbox table, updated in place. */
  class InboxTable {
    var rows: InboxRows

    constructor(rows: InboxRows)
      ensures this.rows == rows
    {
      this.rows := rows;
    }

    method MarkAsEnqueued(id: string, now: int) returns (updated: bool)
      modifies this
      ensures (updated, rows) == MarkEnqueued(old(rows), id, now)
    {
      updated := id in rows && rows[id].status == Received;
      if updated {
        rows := rows[id := rows[id].(status := Enqueued, updatedAt := now)];
      }
    }
  }
}
