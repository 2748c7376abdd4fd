/** The two tables the relay works on, as rows keyed by their `id` column.
    Date-times are instants in microseconds. */
module Schema {
  import opened Wrappers

  /** The outbox `status` column. */
  datatype OutboxStatus = Pending | Processing | Sent | Failed {
    function Name(): string {
      match this
      case Pending => "PENDING"
      case Processing => "PROCESSING"
      case Sent => "SENT"
      case Failed => "FAILED"
    }
  }

  /** A row of the `outbox` table (its `id` is the key). */
  datatype OutboxRow = OutboxRow(
    aggregateType: string,
    aggregateId: string,
    eventType: string,
    status: OutboxStatus,
    createdAt: int,
    sentAt: Option<int>)

  /** The `outbox` table, keyed by `id`. */
  type OutboxRows = map<string, OutboxRow>

  /** The inbox statuses the relay reads and writes; the downstream worker
      may store others. */
  const Received: string := "RECEIVED"
  const Enqueued: string := "ENQUEUED"

  /** A row of the `command_inbox` table (its `id` is the key). The payload
      column holds serialized JSON text. */
  datatype InboxRow = InboxRow(
    idempotencyKey: string,
    source: string,
    requestType: string,
    scopeKey: string,
    payloadHash: string,
    payload: string,
    status: string,
    result: Option<string>,
    errorMessage: Option<string>,
    processedAt: Option<int>,
    expiresAt: Option<int>,
    createdAt: int,
    updatedAt: int)

  /** The `command_inbox` table, keyed by `id`. */
  type InboxRows = map<string, InboxRow>
}
