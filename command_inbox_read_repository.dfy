/** The point lookup into the command inbox. */
module CommandInboxReadRepository {
  import opened Wrappers
  import opened Uuids
  import opened Records
  import opened Schema
  import opened CommandEntity

  function StampCell(o: Option<int>): Value {
    match o
    case None => Null
    case Some(t) => Stamp(t)
  }

  /** The fourteen columns of a row, as the array handed to `fromArray`. */
  function RowRecord(id: string, row: InboxRow): Record {
    map[
      "id" := Text(id),
      "idempotency_key" := Text(row.idempotencyKey),
      "source" := Text(row.source),
      "type" := Text(row.requestType),
      "scope_key" := Text(row.scopeKey),
      "payload_hash" := Text(row.payloadHash),
      "payload" := Text(row.payload),
      "status" := Text(row.status),
      "result" := TextOrNull(row.result),
      "error_message" := TextOrNull(row.errorMessage),
      "processed_at" := StampCell(row.processedAt),
      "expires_at" := StampCell(row.expiresAt),
      "created_at" := Stamp(row.createdAt),
      "updated_at" := Stamp(row.updatedAt)
    ]
  }

  /** The entity a row stands for, column by column. */
  function RowCommand(id: string, row: InboxRow): Command {
    Command(Uuid(id), row.idempotencyKey, row.source, row.requestType, row.scopeKey,
            row.payloadHash, Encoded(row.payload), row.status, row.result, row.errorMessage,
            row.processedAt, row.expiresAt, row.createdAt, row.updatedAt)
  }

  /** The identifying and text cells of a row's record. */
  lemma RowRecordTexts(id: string, row: InboxRow)
    ensures RowRecord(id, row)["id"] == Text(id)
    ensures RowRecord(id, row)["idempotency_key"] == Text(row.idempotencyKey)
    ensures RowRecord(id, row)["source"] == Text(row.source)
    ensures RowRecord(id, row)["type"] == Text(row.requestType)
    ensures RowRecord(id, row)["scope_key"] == Text(row.scopeKey)
    ensures RowRecord(id, row)["payload_hash"] == Text(row.payloadHash)
    ensures RowRecord(id, row)["payload"] == Text(row.payload)
    ensures RowRecord(id, row)["status"] == Text(row.status)
  {
  }

  /** The nullable and date-time cells of a row's record. */
  lemma RowRecordOptionals(id: string, row: InboxRow)
    ensures RowRecord(id, row)["result"] == TextOrNull(row.result)
    ensures RowRecord(id, row)["error_message"] == TextOrNull(row.errorMessage)
    ensures RowRecord(id, row)["processed_at"] == StampCell(row.processedAt)
    ensures RowRecord(id, row)["expires_at"] == StampCell(row.expiresAt)
    ensures RowRecord(id, row)["created_at"] == Stamp(row.createdAt)
    ensures RowRecord(id, row)["updated_at"] == Stamp(row.updatedAt)
  {
  }

  /** A row whose id is a UUID converts to the entity it stands for. */
  lemma RowReadBack(id: string, row: InboxRow)
    requires WellFormed(id)
    ensures CommandEntity.FromArray(RowRecord(id, row)) == Ok(RowCommand(id, row))
  {
    var d := RowRecord(id, row);
    RowRecordTexts(id, row);
    RowRecordOptionals(id, row);
    assert Readable(d);
    var c := CommandEntity.FromArray(d).value;
    assert c.result == row.result && c.errorMessage == row.errorMessage;
    assert c.processedAt == row.processedAt && c.expiresAt == row.expiresAt;
    assert c.payload == Encoded(row.payload);
  }

  /** Converting a row fails exactly when its id is not a UUID. */
  lemma RowConversion(id: string, row: InboxRow)
    ensures CommandEntity.FromArray(RowRecord(id, row)) ==
            if WellFormed(id) then Ok(RowCommand(id, row)) else Err(InvalidFormat(id))
  {
    if WellFormed(id) {
      RowReadBack(id, row);
    } else {
      RowRecordTexts(id, row);
      assert HasText(RowRecord(id, row), "id");
    }
  }

  /** `findByCommandId`: null exactly when no row has the id; otherwise the
      row's columns copied unchanged into the entity, whose id is the one
      asked for. Building the entity raises when the id is not a UUID. The
      table is only read. */
  function FindByCommandId(rows: InboxRows, commandId: string): (r: Result<Option<Command>>)
    ensures r == Ok(None) <==> commandId !in rows
    ensures r.Err? <==> commandId in rows && !WellFormed(commandId)
    ensures r.Err? ==> r.error == InvalidFormat(commandId)
    ensures r.Ok? && r.value.Some? ==> r.value.value == RowCommand(commandId, rows[commandId])
    ensures r.Ok? && r.value.Some? ==> r.value.value.id.text == commandId
  {
    if commandId !in rows then Ok(None)
    else
      RowConversion(commandId, rows[commandId]);
      var c :- CommandEntity.FromArray(RowRecord(commandId, rows[commandId]));
      Ok(Some(c))
  }
}
