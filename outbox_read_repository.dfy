/** The batch read of the outbox: PENDING rows, oldest first, at most
    `limit` of them. The query orders by creation time only, so rows created
    at the same instant may come in any order; `PendingBatch` states what
    every admissible answer satisfies and `FindPendingEvents` returns one. */
module OutboxReadRepository {
  import opened Wrappers
  import opened Uuids
  import opened Records
  import opened Schema
  import opened OutboxEventEntity

  function PendingIds(rows: OutboxRows): set<string> {
    set id | id in rows && rows[id].status == Pending
  }

  function Min(a: int, b: int): int {
    if a <= b then a else b
  }

  /** `ids` is a correct answer to the query with this limit: distinct
      PENDING rows, oldest first, as many as the limit allows, and no PENDING
      row left out is older than one returned. */
  ghost predicate PendingBatch(rows: OutboxRows, limit: nat, ids: seq<string>) {
    && (forall i :: 0 <= i < |ids| ==> ids[i] in PendingIds(rows))
    && (forall i, j :: 0 <= i < j < |ids| ==> ids[i] != ids[j])
    && (forall i, j :: 0 <= i < j < |ids| ==> rows[ids[i]].createdAt <= rows[ids[j]].createdAt)
    && |ids| == Min(limit, |PendingIds(rows)|)
    && (forall id, i :: id in PendingIds(rows) && id !in ids && 0 <= i < |ids| ==>
          rows[ids[i]].createdAt <= rows[id].createdAt)
  }

  /** The selected columns of a row, as the array handed to `fromArray`. */
  function RowRecord(id: string, row: OutboxRow): Record {
    map[
      "id" := Text(id),
      "aggregate_type" := Text(row.aggregateType),
      "aggregate_id" := Text(row.aggregateId),
      "event_type" := Text(row.eventType),
      "status" := Text(row.status.Name()),
      "created_at" := Stamp(row.createdAt)
    ]
  }

  /** The entity a row stands for, column by column. */
  function RowEvent(id: string, row: OutboxRow): OutboxEvent {
    OutboxEvent(Uuid(id), row.aggregateType, row.aggregateId, row.eventType, row.status.Name(), row.createdAt)
  }

  /** Converting a row fails exactly when its id is not a UUID. */
  lemma RowConversion(id: string, row: OutboxRow)
    ensures OutboxEventEntity.FromArray(RowRecord(id, row)) ==
            if WellFormed(id) then Ok(RowEvent(id, row)) else Err(InvalidFormat(id))
  {
  }

  /** A non-empty set of rows has an oldest member. */
  lemma OldestExists(rows: OutboxRows, candidates: set<string>)
    requires candidates != {} && candidates <= rows.Keys
    ensures exists m :: m in candidates && forall x :: x in candidates ==> rows[m].createdAt <= rows[x].createdAt
  {
    var y :| y in candidates;
    if candidates - {y} != {} {
      OldestExists(rows, candidates - {y});
      var m :| m in candidates - {y} && forall x :: x in candidates - {y} ==> rows[m].createdAt <= rows[x].createdAt;
      if rows[y].createdAt < rows[m].createdAt {
        assert forall x :: x in candidates ==> rows[y].createdAt <= rows[x].createdAt;
      } else {
        assert forall x :: x in candidates ==> rows[m].createdAt <= rows[x].createdAt;
      }
    } else {
      assert candidates == {y};
    }
  }

  /** Part way through the selection: `ids` are the oldest PENDING rows
      taken so far, in order, and `remaining` holds the rest. */
  ghost predicate Selection(rows: OutboxRows, ids: seq<string>, remaining: set<string>) {
    && remaining <= PendingIds(rows)
    && |remaining| + |ids| == |PendingIds(rows)|
    && (forall i :: 0 <= i < |ids| ==> ids[i] in PendingIds(rows) && ids[i] !in remaining)
    && (forall x :: x in PendingIds(rows) ==> x in remaining || x in ids)
    && (forall i, j :: 0 <= i < j < |ids| ==> ids[i] != ids[j])
    && (forall i, j :: 0 <= i < j < |ids| ==> rows[ids[i]].createdAt <= rows[ids[j]].createdAt)
    && (forall x, i :: x in remaining && 0 <= i < |ids| ==> rows[ids[i]].createdAt <= rows[x].createdAt)
  }

  /** Taking an oldest remaining row keeps the selection correct. */
  lemma SelectionStep(rows: OutboxRows, ids: seq<string>, remaining: set<string>, m: string)
    requires Selection(rows, ids, remaining)
    requires m in remaining && forall x :: x in remaining ==> rows[m].createdAt <= rows[x].createdAt
    ensures Selection(rows, ids + [m], remaining - {m})
    ensures |remaining - {m}| < |remaining|
  {
    assert |remaining - {m}| == |remaining| - 1;
    var ids' := ids + [m];
    forall x | x in PendingIds(rows) ensures x in remaining - {m} || x in ids' {
      if x == m {
        assert ids'[|ids|] == m;
      } else if x !in remaining {
        var i :| 0 <= i < |ids| && ids[i] == x;
        assert ids'[i] == x;
      }
    }
  }

  /** A selection stopped by the limit or by running out of rows is a
      correct batch. */
  lemma SelectionDone(rows: OutboxRows, limit: nat, ids: seq<string>, remaining: set<string>)
    requires Selection(rows, ids, remaining) && |ids| <= limit
    requires |ids| == limit || remaining == {}
    ensures PendingBatch(rows, limit, ids)
  {
  }

  /** The query's selection: the ids of a correct batch, picked oldest
      first. */
  method SelectPending(rows: OutboxRows, limit: nat) returns (ids: seq<string>)
    ensures PendingBatch(rows, limit, ids)
  {
    ids := [];
    var remaining := PendingIds(rows);
    while |ids| < limit && remaining != {}
      invariant Selection(rows, ids, remaining)
      invariant |ids| <= limit
      decreases |remaining|
    {
      OldestExists(rows, remaining);
      var m :| m in remaining && forall x :: x in remaining ==> rows[m].createdAt <= rows[x].createdAt;
      SelectionStep(rows, ids, remaining, m);
      ids := ids + [m];
      remaining := remaining - {m};
    }
    SelectionDone(rows, limit, ids, remaining);
  }

  /** The database's complaint about a negative LIMIT. */
  const NegativeLimit: string := "LIMIT must not be negative"

  /** `findPendingEvents`: a negative limit is rejected by the database; any
      other limit selects a correct batch, converted row by row in order, and
      the read raises if a selected row's id is not a UUID. Nothing is written. */
  method FindPendingEvents(rows: OutboxRows, limit: int) returns (r: Result<seq<OutboxEvent>>, ghost ids: seq<string>)
    ensures limit < 0 ==> r.Err?
    ensures limit >= 0 ==> PendingBatch(rows, limit, ids)
    ensures r.Ok? <==> limit >= 0 && forall i :: 0 <= i < |ids| ==> WellFormed(ids[i])
    ensures r.Ok? ==> |r.value| == |ids|
    ensures r.Ok? ==> forall i :: 0 <= i < |ids| ==> r.value[i] == RowEvent(ids[i], rows[ids[i]])
    ensures r.Ok? ==> forall i :: 0 <= i < |r.value| ==> r.value[i].status == "PENDING"
    ensures r.Ok? ==> forall i, j :: 0 <= i < j < |r.value| ==> r.value[i].createdAt <= r.value[j].createdAt
  {
    if limit < 0 {
      return Err(NegativeLimit), [];
    }
    var selected := SelectPending(rows, limit);
    ids := selected;
    var events: seq<OutboxEvent> := [];
    for i := 0 to |selected|
      invariant |events| == i
      invariant forall j :: 0 <= j < i ==> WellFormed(selected[j]) && events[j] == RowEvent(selected[j], rows[selected[j]])
    {
      RowConversion(selected[i], rows[selected[i]]);
      var converted := OutboxEventEntity.FromArray(RowRecord(selected[i], rows[selected[i]]));
      if converted.Err? {
        return Err(converted.error), ids;
      }
      events := events + [converted.value];
    }
    r := Ok(events);
  }
}
