/** The outbox event entity: an immutable record (every field is readonly and
    there is no mutator) with its conversions to and from an array. */
module OutboxEventEntity {
  import opened Wrappers
  import opened Uuids
  import opened Records

  datatype OutboxEvent = OutboxEvent(
    id: Uuid,
    aggregateType: string,
    aggregateId: string,
    eventType: string,
    status: string,
    createdAt: int)

  /** The keys `toArray` writes and `fromArray` reads. */
  const ArrayKeys: set<string> :=
    {"id", "aggregate_type", "aggregate_id", "event_type", "status", "created_at"}

  /** `OutboxEvent::create`: the given fields, and an id that the caller draws
      from the identifier generator (`freshId`). */
  function Create(freshId: Uuid, aggregateType: string, aggregateId: string, eventType: string,
                  status: string, createdAt: int): (e: OutboxEvent)
    ensures e.id == freshId
    ensures e.aggregateType == aggregateType && e.aggregateId == aggregateId
    ensures e.eventType == eventType && e.status == status && e.createdAt == createdAt
  {
    OutboxEvent(freshId, aggregateType, aggregateId, eventType, status, createdAt)
  }

  /** `toArray`: six keys, each holding its field; the creation time is
      formatted to whole seconds. */
  function ToArray(e: OutboxEvent): (d: Record)
    ensures d.Keys == ArrayKeys
    ensures d["id"] == Text(e.id.text)
    ensures d["aggregate_type"] == Text(e.aggregateType) && d["aggregate_id"] == Text(e.aggregateId)
    ensures d["event_type"] == Text(e.eventType) && d["status"] == Text(e.status)
    ensures d["created_at"] == Stamp(WholeSecond(e.createdAt))
  {
    map[
      "id" := Text(e.id.text),
      "aggregate_type" := Text(e.aggregateType),
      "aggregate_id" := Text(e.aggregateId),
      "event_type" := Text(e.eventType),
      "status" := Text(e.status),
      "created_at" := Stamp(WholeSecond(e.createdAt))
    ]
  }

  /** What `fromArray` needs of its argument in order to return normally. */
  predicate Readable(d: Record) {
    && "id" in d && d["id"].Text? && WellFormed(d["id"].s)
    && "aggregate_type" in d && d["aggregate_type"].Text?
    && "aggregate_id" in d && d["aggregate_id"].Text?
    && "event_type" in d && d["event_type"].Text?
    && "status" in d && d["status"].Text?
    && "created_at" in d && d["created_at"].Stamp?
  }

  /** `fromArray`: fails on a missing or mistyped field and on an id that is
      not a UUID; otherwise every accessor returns the array's value. When
      several fields are bad, the first in column order is reported. */
  function FromArray(d: Record): (r: Result<OutboxEvent>)
    ensures r.Ok? <==> Readable(d)
    ensures r.Ok? ==> r.value.id.text == d["id"].s
    ensures r.Ok? ==> r.value.aggregateType == d["aggregate_type"].s
    ensures r.Ok? ==> r.value.aggregateId == d["aggregate_id"].s
    ensures r.Ok? ==> r.value.eventType == d["event_type"].s
    ensures r.Ok? ==> r.value.status == d["status"].s
    ensures r.Ok? ==> r.value.createdAt == d["created_at"].micros
    ensures "id" in d && d["id"].Text? && !WellFormed(d["id"].s) ==>
              r == Err(InvalidFormat(d["id"].s))
  {
    var idText :- RequireText(d, "id");
    var id :- Uuids.FromString(idText);
    var aggregateType :- RequireText(d, "aggregate_type");
    var aggregateId :- RequireText(d, "aggregate_id");
    var eventType :- RequireText(d, "event_type");
    var status :- RequireText(d, "status");
    var createdAt :- RequireStamp(d, "created_at");
    Ok(OutboxEvent(id, aggregateType, aggregateId, eventType, status, createdAt))
  }

  /** `fromArray(toArray(e))` gives `e` back exactly when the id is a UUID and
      the creation time has no fraction of a second. */
  lemma RoundTrip(e: OutboxEvent)
    ensures FromArray(ToArray(e)) == Ok(e) <==> WellFormed(e.id.text) && IsWholeSecond(e.createdAt)
  {
    var d := ToArray(e);
    if WellFormed(e.id.text) {
      assert Readable(d);
      var r := FromArray(d);
      assert r.value.createdAt == WholeSecond(e.createdAt);
      if IsWholeSecond(e.createdAt) {
        assert r.value == e;
      }
    }
  }
}
