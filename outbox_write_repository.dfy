/** The write side of the outbox table. Every update is keyed by id, so no
    other row changes; the table's keys never change except by insertion. */
module OutboxWriteRepository {
  import opened Wrappers
  import opened Uuids
  import opened Schema

  /** `insertOrIgnore` of a fresh PENDING row with no send time; an id that is
      already taken leaves the table as it was. */
  function InsertPending(rows: OutboxRows, id: string, aggregateType: string, aggregateId: string,
                         eventType: string, now: int): (r: OutboxRows)
    ensures id in rows ==> r == rows
    ensures id !in rows ==> r.Keys == rows.Keys + {id}
    ensures id !in rows ==> r[id] == OutboxRow(aggregateType, aggregateId, eventType, Pending, now, None)
    ensures forall k :: k in rows ==> k in r && r[k] == rows[k]
  {
    if id in rows then rows
    else rows[id := OutboxRow(aggregateType, aggregateId, eventType, Pending, now, None)]
  }

  /** `markAsSent`: SENT and a send time, whatever the prior status. */
  function MarkedSent(rows: OutboxRows, id: string, now: int): (r: OutboxRows)
    ensures r.Keys == rows.Keys
    ensures id in rows ==> r[id] == rows[id].(status := Sent, sentAt := Some(now))
    ensures forall k :: k in rows && k != id ==> r[k] == rows[k]
  {
    if id in rows then rows[id := rows[id].(status := Sent, sentAt := Some(now))] else rows
  }

  /** `markAsFailed`: FAILED, whatever the prior status. The reason the
      caller passes is not stored anywhere, so it is not an argument here. */
  function MarkedFailed(rows: OutboxRows, id: string): (r: OutboxRows)
    ensures r.Keys == rows.Keys
    ensures id in rows ==> r[id] == rows[id].(status := Failed)
    ensures forall k :: k in rows && k != id ==> r[k] == rows[k]
  {
    if id in rows then rows[id := rows[id].(status := Failed)] else rows
  }

  /** `markAsProcessing`: the conditional claim. It succeeds exactly when the
      row exists and is PENDING, and then the row is PROCESSING; otherwise
      the table is unchanged. */
  function Claim(rows: OutboxRows, id: string): (r: (bool, OutboxRows))
    ensures r.0 <==> id in rows && rows[id].status == Pending
    ensures r.0 ==> r.1 == rows[id := rows[id].(status := Processing)]
    ensures !r.0 ==> r.1 == rows
  {
    if id in rows && rows[id].status == Pending then (true, rows[id := rows[id].(status := Processing)])
    else (false, rows)
  }

  /** A freshly inserted event is PENDING, so the relay can claim it, and
      the claim turns exactly that row into PROCESSING. Inserting the same id
      again changes nothing. */
  lemma InsertedIsClaimable(rows: OutboxRows, id: string, aggregateType: string, aggregateId: string,
                            eventType: string, now: int, later: int)
    requires id !in rows
    ensures Claim(InsertPending(rows, id, aggregateType, aggregateId, eventType, now), id).0
    ensures Claim(InsertPending(rows, id, aggregateType, aggregateId, eventType, now), id).1 ==
              rows[id := OutboxRow(aggregateType, aggregateId, eventType, Processing, now, None)]
    ensures InsertPending(InsertPending(rows, id, aggregateType, aggregateId, eventType, now),
                          id, aggregateType, aggregateId, eventType, later) ==
              InsertPending(rows, id, aggregateType, aggregateId, eventType, now)
  {
  }

  /** A second claim of the same id fails and changes nothing: at most one
      caller is granted a row. */
  lemma ClaimOnce(rows: OutboxRows, id: string)
    ensures !Claim(Claim(rows, id).1, id).0
    ensures Claim(Claim(rows, id).1, id).1 == Claim(rows, id).1
  {
  }

  /** The outbox table, updated in place by the repository's methods. */
  class OutboxTable {
    var rows: OutboxRows

    constructor(rows: OutboxRows)
      ensures this.rows == rows
    {
      this.rows := rows;
    }

    /** `addPendingEvent`; the new id comes from the identifier generator. */
    method AddPendingEvent(freshId: Uuid, aggregateType: string, aggregateId: string,
                           eventType: string, now: int)
      modifies this
      ensures rows == InsertPending(old(rows), freshId.text, aggregateType, aggregateId, eventType, now)
    {
      if freshId.text !in rows {
        rows := rows[freshId.text := OutboxRow(aggregateType, aggregateId, eventType, Pending, now, None)];
      }
    }

    method MarkAsSent(id: string, now: int)
      modifies this
      ensures rows == MarkedSent(old(rows), id, now)
    {
      if id in rows {
        rows := rows[id := rows[id].(status := Sent, sentAt := Some(now))];
      }
    }

    /** The error message is accepted and dropped. */
    method MarkAsFailed(id: string, errorMessage: Option<string>)
      modifies this
      ensures rows == MarkedFailed(old(rows), id)
    {
      if id in rows {
        rows := rows[id := rows[id].(status := Failed)];
      }
    }

    method MarkAsProcessing(id: string) returns (claimed: bool)
      modifies this
      ensures (claimed, rows) == Claim(old(rows), id)
    {
      claimed := id in rows && rows[id].status == Pending;
      if claimed {
        rows := rows[id := rows[id].(status := Processing)];
      }
    }
  }
}
