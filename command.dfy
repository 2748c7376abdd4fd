/** The idempotency inbox record (declared as `Command`, imported elsewhere as
    `CommandInBox`; both names denote this one record). Immutable, with its
    conversions to and from an array. The field the source calls `type` is
    `requestType` here (`type` is a Dafny keyword). */
module CommandEntity {
  import opened Wrappers
  import opened Uuids
  import opened Records

  /** The request body: serialized JSON text, or an already decoded document. */
  datatype Payload = Encoded(json: string) | Decoded(fields: map<string, string>)

  datatype Command = Command(
    id: Uuid,
    idempotencyKey: string,
    source: string,
    requestType: string,
    scopeKey: string,
    payloadHash: string,
    payload: Payload,
    status: string,
    result: Option<string>,
    errorMessage: Option<string>,
    processedAt: Option<int>,
    expiresAt: Option<int>,
    createdAt: int,
    updatedAt: int)

  const ArrayKeys: set<string> :=
    {"id", "idempotency_key", "source", "type", "scope_key", "payload_hash", "payload", "status",
     "result", "error_message", "processed_at", "expires_at", "created_at", "updated_at"}

  function PayloadValue(p: Payload): Value {
    match p
    case Encoded(s) => Text(s)
    case Decoded(m) => Fields(m)
  }

  const NotAPayload: string := "payload must be of type array|string"

  /** `$data['payload']` passed where `string|array` is declared. */
  function RequirePayload(d: Record): (r: Result<Payload>)
    ensures r.Ok? <==> "payload" in d && (d["payload"].Text? || d["payload"].Fields?)
    ensures r.Ok? ==> PayloadValue(r.value) == d["payload"]
  {
    if "payload" !in d then Err(UndefinedKey("payload"))
    else match d["payload"]
      case Text(s) => Ok(Encoded(s))
      case Fields(m) => Ok(Decoded(m))
      case _ => Err(NotAPayload)
  }

  /** `toArray`: fourteen keys; absent optional values become null and every
      date-time is formatted to whole seconds. */
  function ToArray(c: Command): (d: Record)
    ensures d.Keys == ArrayKeys
    ensures d["payload"] == PayloadValue(c.payload)
    ensures c.processedAt.None? <==> d["processed_at"] == Null
    ensures c.expiresAt.None? <==> d["expires_at"] == Null
    ensures c.result.None? <==> d["result"] == Null
    ensures c.errorMessage.None? <==> d["error_message"] == Null
  {
    map[
      "id" := Text(c.id.text),
      "idempotency_key" := Text(c.idempotencyKey),
      "source" := Text(c.source),
      "type" := Text(c.requestType),
      "scope_key" := Text(c.scopeKey),
      "payload_hash" := Text(c.payloadHash),
      "payload" := PayloadValue(c.payload),
      "status" := Text(c.status),
      "result" := TextOrNull(c.result),
      "error_message" := TextOrNull(c.errorMessage),
      "processed_at" := StampOrNull(c.processedAt),
      "expires_at" := StampOrNull(c.expiresAt),
      "created_at" := Stamp(WholeSecond(c.createdAt)),
      "updated_at" := Stamp(WholeSecond(c.updatedAt))
    ]
  }

  predicate HasText(d: Record, key: string) {
    key in d && d[key].Text?
  }

  predicate TextOrAbsent(d: Record, key: string) {
    key !in d || d[key].Null? || d[key].Text?
  }

  predicate StampOrAbsent(d: Record, key: string) {
    key !in d || d[key].Null? || d[key].Stamp?
  }

  /** What `fromArray` needs of its argument in order to return normally. */
  predicate Readable(d: Record) {
    && HasText(d, "id") && WellFormed(d["id"].s)
    && HasText(d, "idempotency_key") && HasText(d, "source") && HasText(d, "type")
    && HasText(d, "scope_key") && HasText(d, "payload_hash")
    && "payload" in d && (d["payload"].Text? || d["payload"].Fields?)
    && HasText(d, "status")
    && TextOrAbsent(d, "result") && TextOrAbsent(d, "error_message")
    && StampOrAbsent(d, "processed_at") && StampOrAbsent(d, "expires_at")
    && "created_at" in d && d["created_at"].Stamp?
    && "updated_at" in d && d["updated_at"].Stamp?
  }

  /** `fromArray`: `result` and `error_message` default to null when missing;
      `processed_at` and `expires_at` are null when missing or null; the
      payload passes through as it is; an id that is not a UUID raises. When
      several fields are bad, the first in column order is reported. */
  function FromArray(d: Record): (r: Result<Command>)
    ensures r.Ok? <==> Readable(d)
    ensures r.Ok? ==> r.value.id.text == d["id"].s
    ensures r.Ok? ==> r.value.idempotencyKey == d["idempotency_key"].s && r.value.source == d["source"].s
    ensures r.Ok? ==> r.value.requestType == d["type"].s && r.value.scopeKey == d["scope_key"].s
    ensures r.Ok? ==> r.value.payloadHash == d["payload_hash"].s && r.value.status == d["status"].s
    ensures r.Ok? ==> PayloadValue(r.value.payload) == d["payload"]
    ensures r.Ok? ==> (r.value.result.None? <==> "result" !in d || d["result"].Null?)
    ensures r.Ok? ==> (r.value.errorMessage.None? <==> "error_message" !in d || d["error_message"].Null?)
    ensures r.Ok? ==> (r.value.processedAt.None? <==> "processed_at" !in d || d["processed_at"].Null?)
    ensures r.Ok? ==> (r.value.expiresAt.None? <==> "expires_at" !in d || d["expires_at"].Null?)
    ensures r.Ok? && r.value.result.Some? ==> d["result"] == Text(r.value.result.value)
    ensures r.Ok? && r.value.errorMessage.Some? ==> d["error_message"] == Text(r.value.errorMessage.value)
    ensures r.Ok? && r.value.processedAt.Some? ==> d["processed_at"] == Stamp(r.value.processedAt.value)
    ensures r.Ok? && r.value.expiresAt.Some? ==> d["expires_at"] == Stamp(r.value.expiresAt.value)
    ensures r.Ok? ==> r.value.createdAt == d["created_at"].micros && r.value.updatedAt == d["updated_at"].micros
    ensures HasText(d, "id") && !WellFormed(d["id"].s) ==> r == Err(InvalidFormat(d["id"].s))
  {
    var idText :- RequireText(d, "id");
    var id :- Uuids.FromString(idText);
    var idempotencyKey :- RequireText(d, "idempotency_key");
    var source :- RequireText(d, "source");
    var requestType :- RequireText(d, "type");
    var scopeKey :- RequireText(d, "scope_key");
    var payloadHash :- RequireText(d, "payload_hash");
    var payload :- RequirePayload(d);
    var status :- RequireText(d, "status");
    var result :- OptionalText(d, "result");
    var errorMessage :- OptionalText(d, "error_message");
    var processedAt :- OptionalStamp(d, "processed_at");
    var expiresAt :- OptionalStamp(d, "expires_at");
    var createdAt :- RequireStamp(d, "created_at");
    var updatedAt :- RequireStamp(d, "updated_at");
    Ok(Command(id, idempotencyKey, source, requestType, scopeKey, payloadHash, payload, status,
               result, errorMessage, processedAt, expiresAt, createdAt, updatedAt))
  }

  /** Every date-time of the record, including the optional ones, has no
      fraction of a second. */
  predicate WholeSecondTimes(c: Command) {
    IsWholeSecondOrNull(c.processedAt) && IsWholeSecondOrNull(c.expiresAt)
    && IsWholeSecond(c.createdAt) && IsWholeSecond(c.updatedAt)
  }

  /** The cells `toArray` writes, column by column. */
  lemma ToArrayTexts(c: Command)
    ensures ToArray(c)["id"] == Text(c.id.text)
    ensures ToArray(c)["idempotency_key"] == Text(c.idempotencyKey)
    ensures ToArray(c)["source"] == Text(c.source)
    ensures ToArray(c)["type"] == Text(c.requestType)
    ensures ToArray(c)["scope_key"] == Text(c.scopeKey)
    ensures ToArray(c)["payload_hash"] == Text(c.payloadHash)
    ensures ToArray(c)["status"] == Text(c.status)
  {
  }

  lemma ToArrayOptionals(c: Command)
    ensures ToArray(c)["result"] == TextOrNull(c.result)
    ensures ToArray(c)["error_message"] == TextOrNull(c.errorMessage)
    ensures ToArray(c)["processed_at"] == StampOrNull(c.processedAt)
    ensures ToArray(c)["expires_at"] == StampOrNull(c.expiresAt)
    ensures ToArray(c)["created_at"] == Stamp(WholeSecond(c.createdAt))
    ensures ToArray(c)["updated_at"] == Stamp(WholeSecond(c.updatedAt))
  {
  }

  function WholeSecondOption(o: Option<int>): Option<int> {
    match o
    case None => None
    case Some(t) => Some(WholeSecond(t))
  }

  /** The record as storage gives it back: every date-time cut to whole seconds. */
  function Truncated(c: Command): Command {
    c.(processedAt := WholeSecondOption(c.processedAt), expiresAt := WholeSecondOption(c.expiresAt),
       createdAt := WholeSecond(c.createdAt), updatedAt := WholeSecond(c.updatedAt))
  }

  /** With a UUID id, `fromArray(toArray(c))` gives back `c` with its
      date-times cut to whole seconds. */
  lemma ReadBack(c: Command)
    requires WellFormed(c.id.text)
    ensures FromArray(ToArray(c)) == Ok(Truncated(c))
  {
    var d := ToArray(c);
    ToArrayTexts(c);
    ToArrayOptionals(c);
    assert Readable(d);
    var r := FromArray(d).value;
    assert r.processedAt == WholeSecondOption(c.processedAt) && r.expiresAt == WholeSecondOption(c.expiresAt);
    assert r.result == c.result && r.errorMessage == c.errorMessage;
    assert r.payload == c.payload;
  }

  /** `fromArray(toArray(c))` gives `c` back exactly when the id is a UUID and
      no date-time has a fraction of a second. */
  lemma RoundTrip(c: Command)
    ensures FromArray(ToArray(c)) == Ok(c) <==> WellFormed(c.id.text) && WholeSecondTimes(c)
  {
    if WellFormed(c.id.text) {
      ReadBack(c);
      TruncatedFixed(c);
    } else {
      ToArrayTexts(c);
      assert HasText(ToArray(c), "id");
      assert FromArray(ToArray(c)).Err?;
    }
  }

  /** Cutting to whole seconds changes nothing exactly when there is no fraction. */
  lemma TruncatedFixed(c: Command)
    ensures Truncated(c) == c <==> WholeSecondTimes(c)
  {
    if Truncated(c) == c {
      assert WholeSecondOption(c.processedAt) == c.processedAt && WholeSecondOption(c.expiresAt) == c.expiresAt;
    }
  }
}
