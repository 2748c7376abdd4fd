# Outbox relay of Worker-Publish, modelled in Dafny

Worker-Publish is the publishing half of a transactional outbox. A business
transaction writes a domain event into the `outbox` table. A separate
command-acceptance path has written the request it stands for into the
`command_inbox` table earlier, so the relay may find that record missing. The relay is the
console command `outbox:process`. Each run it reads a batch of PENDING
outbox rows, oldest first. For each row it:

- claims the row with a conditional update (PENDING to PROCESSING);
- looks up the inbox record the event refers to;
- maps the event type to a command type and the command type to a job
  class;
- builds the job from the decoded payload and dispatches it to the queue;
- marks the inbox record ENQUEUED and the outbox row SENT.

A missing record or an unsupported event type marks the row FAILED. A
raised error is classified by the words in its message. A transient
error puts the row back to PENDING for a later run. Any other error
marks the row FAILED.

The model has one module per source file. Three kinds of member make it
up:

- **Tables and queue.** The two tables are classes (`OutboxTable`,
  `InboxTable`) whose `rows` map the methods reassign. The queue is a
  class (`TaskQueue`) holding the log of dispatched tasks.
- **Pure specifications.** Each write-repository method is proved equal
  to a pure function of the old rows. The batch read is proved to return
  an answer that satisfies the relation `PendingBatch`, because the
  database may order rows with equal creation times either way. The processor's methods are proved
  equal to pure transition functions of the whole store (`TryStep`,
  `DeliverStep`, `CatchStep`, `ProcessEventSpec`, `RunBatch`).
- **Properties.** The properties of the relay are lemmas over those
  functions, in the module `OutboxRelayProperties`.

Failures of the database, the queue and the JSON decoder are inputs. A
`Faults` record says which store call of an event raises, and with what
message. `decode` is the JSON decoder. `Env` carries the clock reading;
a run gives each event its own `Env`.
So every path through the `try` and `catch` blocks is reachable in the
model.

Identifiers are strings. Date-times are instants in microseconds, with
no time zone. Formatting a date-time with `Y-m-d H:i:s` cuts it to the
whole second. For these zone-less instants, array round trips hold
exactly when the id is a UUID and no date-time has a fraction of a
second.

Four behaviours of the code worth knowing:

- **`markAsFailed` discards its reason.** It writes only the status
  column (`OutboxWriteRepository.php:39-46`). No error text is stored
  for a FAILED row, so the row cannot record the missing aggregate id,
  the unsupported event type or the error message. `OutboxWriteRepository.OutboxTable.MarkAsFailed` accepts the
  reason and drops it.
- **`cancel_occurrence` has no route.** The mapper sends
  `OccurrenceCancelledRequested` to `cancel_occurrence`
  (`OutboxEventMapper.php:15`). The routing table of the publisher has
  no entry for it (`OutboxQueuePublisher.php:21-28`). A cancellation
  therefore raises "Unsupported command type: cancel_occurrence", which
  matches no transient pattern. So a cancellation is never dispatched
  and ends FAILED. `OutboxRelayProperties.CancellationNeverDispatched`
  proves this.
- **Ack failure means a second delivery.** An error after the dispatch
  (from the ENQUEUED or the SENT update) is caught like any other. If
  its message is transient, the row goes back to PENDING although the
  task is already on the queue. The next run rebuilds the task and
  dispatches it again (`OutboxRelayProperties.RedeliveredEvent`).
  Delivery is at least once. The second task equals the first except
  when a `create_occurrence` payload has no `reportedAt`: that field is
  then filled with the later clock reading.
- **An error from the claim or from the catch block escapes
  `processEvent`.** An error from the claim leaves the store as it was,
  so the row stays PENDING and the next run selects it again. An error
  from the catch block leaves the row PROCESSING, where no later run
  selects it (`OutboxRelayProperties.ErrorOutcome`). `handle` counts
  either event as failed but not processed.

## Model

| member | source | states |
|---|---|---|
| Uuids.FromString | src/Domain/Shared/ValueObjects/Uuid.php:23-30 | accepts exactly the well-formed UUID texts and keeps them; any other text fails with "Invalid UUID format: " and the text |
| Records.WholeSecond | src/Domain/Idempotency/Entities/Command.php:44-47 | `Y-m-d H:i:s` formatting gives the whole second at or below the instant, less than a second away |
| Records.RequireText | src/Domain/Idempotency/Entities/Command.php:58-64 | reading a declared string succeeds exactly when the key is present and holds a string, and returns that string |
| Records.RequireStamp | src/Domain/Idempotency/Entities/Command.php:69-70 | parsing a required date-time succeeds exactly when the key holds a date-time, and returns its instant |
| Records.OptionalText | src/Domain/Idempotency/Entities/Command.php:65-66 | `?? null`: absent or null gives null; a string is kept; anything else is a type error |
| Records.OptionalStamp | src/Domain/Idempotency/Entities/Command.php:67-68 | `isset ? parse : null`: absent or null gives null; a date-time is kept; anything else raises |
| Text.Lower | src/Infrastructure/Console/Commands/ProcessOutboxCommand.php:188 | `strtolower` keeps the length and lower-cases each ASCII capital, position by position |
| Text.LowerConcat | src/Infrastructure/Console/Commands/ProcessOutboxCommand.php:188 | lower-casing distributes over concatenation |
| Text.ContainsInContext | src/Infrastructure/Console/Commands/ProcessOutboxCommand.php:200 | a substring found in a text is found in any text built around it |
| Text.MissingCharNotContained | src/Infrastructure/Console/Commands/ProcessOutboxCommand.php:200 | a text lacking one of a pattern's characters does not contain the pattern |
| Text.LowerKeepsCharAbsent | src/Infrastructure/Console/Commands/ProcessOutboxCommand.php:188 | lower-casing introduces a small letter only where its capital stood |
| OutboxEventEntity.Create | src/Domain/Outbox/Entities/OutboxEvent.php:23-38 | the new event has the generated id and exactly the given fields |
| OutboxEventEntity.ToArray | src/Domain/Outbox/Entities/OutboxEvent.php:40-50 | exactly six keys, each holding its field; `created_at` cut to whole seconds |
| OutboxEventEntity.FromArray | src/Domain/Outbox/Entities/OutboxEvent.php:55-65 | succeeds exactly on a readable array, each accessor returning the array's cell; a malformed id raises the UUID error |
| OutboxEventEntity.RoundTrip | src/Domain/Outbox/Entities/OutboxEvent.php:40-65 | `fromArray(toArray(e)) == e` if and only if the id is a UUID and `created_at` has no fraction of a second |
| CommandEntity.RequirePayload | src/Domain/Idempotency/Entities/Command.php:20 | the payload must be a string or an array, and passes through unchanged |
| CommandEntity.ToArray | src/Domain/Idempotency/Entities/Command.php:31-49 | exactly fourteen keys; payload unchanged; each optional field is null exactly when absent |
| CommandEntity.ToArrayTexts | src/Domain/Idempotency/Entities/Command.php:34-41 | the identifying and text cells hold the entity's fields |
| CommandEntity.ToArrayOptionals | src/Domain/Idempotency/Entities/Command.php:42-47 | nullable cells are null or the value; date-times are cut to whole seconds |
| CommandEntity.FromArray | src/Domain/Idempotency/Entities/Command.php:54-72 | succeeds exactly on a readable array; every field is copied; optional fields are null exactly when missing or null; a malformed id raises |
| CommandEntity.ReadBack | src/Domain/Idempotency/Entities/Command.php:31-72 | with a UUID id, `fromArray(toArray(c))` is `c` with its date-times cut to whole seconds |
| CommandEntity.TruncatedFixed | src/Domain/Idempotency/Entities/Command.php:44-47 | cutting to whole seconds changes nothing exactly when no date-time has a fraction |
| CommandEntity.RoundTrip | src/Domain/Idempotency/Entities/Command.php:31-72 | `fromArray(toArray(c)) == c` if and only if the id is a UUID and every date-time is a whole second |
| OutboxEventMapper.Resolve | src/Domain/Outbox/Services/OutboxEventMapper.php:21-28 | a supported type gives its table entry; any other raises "Unsupported event type: " with the type |
| OutboxEventMapper.SupportedEventTypes | src/Domain/Outbox/Services/OutboxEventMapper.php:11-19 | `isSupported` holds for exactly the seven listed event types |
| OutboxEventMapper.ResolveInjective | src/Domain/Outbox/Services/OutboxEventMapper.php:11-19 | distinct supported event types map to distinct command types |
| OutboxWriteRepository.InsertPending | src/Infrastructure/Persistence/Repositories/OutboxWriteRepository.php:13-27 | a fresh id gains a PENDING row with the given aggregate type, aggregate id and event type, the creation time and no send time; a taken id is ignored; existing rows are unchanged |
| OutboxWriteRepository.InsertedIsClaimable | src/Infrastructure/Persistence/Repositories/OutboxWriteRepository.php:13-58 | a freshly inserted event can be claimed, and the claim turns exactly its row PROCESSING; inserting the same id again changes nothing |
| OutboxWriteRepository.MarkedSent | src/Infrastructure/Persistence/Repositories/OutboxWriteRepository.php:29-37 | only the row with the id changes, to SENT with the send time; keys unchanged |
| OutboxWriteRepository.MarkedFailed | src/Infrastructure/Persistence/Repositories/OutboxWriteRepository.php:39-46 | only the row with the id changes, to FAILED, whatever its prior status; keys unchanged |
| OutboxWriteRepository.Claim | src/Infrastructure/Persistence/Repositories/OutboxWriteRepository.php:48-58 | granted exactly when the row exists and is PENDING, and then it becomes PROCESSING; otherwise nothing changes |
| OutboxWriteRepository.ClaimOnce | src/Infrastructure/Persistence/Repositories/OutboxWriteRepository.php:48-58 | a second claim of the same row is refused and changes nothing: at most one claim per row |
| OutboxWriteRepository.OutboxTable.constructor | src/Infrastructure/Persistence/Repositories/OutboxWriteRepository.php:11-12 | the table starts with the given rows |
| OutboxWriteRepository.OutboxTable.AddPendingEvent | src/Infrastructure/Persistence/Repositories/OutboxWriteRepository.php:13-27 | the new rows are `InsertPending` of the old |
| OutboxWriteRepository.OutboxTable.MarkAsSent | src/Infrastructure/Persistence/Repositories/OutboxWriteRepository.php:29-37 | the new rows are `MarkedSent` of the old |
| OutboxWriteRepository.OutboxTable.MarkAsFailed | src/Infrastructure/Persistence/Repositories/OutboxWriteRepository.php:39-46 | the new rows are `MarkedFailed` of the old; the reason is not stored |
| OutboxWriteRepository.OutboxTable.MarkAsProcessing | src/Infrastructure/Persistence/Repositories/OutboxWriteRepository.php:48-58 | the answer and the new rows are `Claim` of the old |
| CommandInboxWriteRepository.MarkEnqueued | src/Infrastructure/Persistence/Repositories/CommandInboxWriteRepository.php:12-23 | succeeds exactly when the record exists and is RECEIVED, and then it becomes ENQUEUED with `updated_at` stamped; otherwise nothing changes |
| CommandInboxWriteRepository.EnqueueIdempotent | src/Infrastructure/Persistence/Repositories/CommandInboxWriteRepository.php:12-23 | two calls give true then false, with one effective transition |
| CommandInboxWriteRepository.InboxTable.constructor | src/Infrastructure/Persistence/Repositories/CommandInboxWriteRepository.php:10-11 | the table starts with the given rows |
| CommandInboxWriteRepository.InboxTable.MarkAsEnqueued | src/Infrastructure/Persistence/Repositories/CommandInboxWriteRepository.php:12-23 | the answer and the new rows are `MarkEnqueued` of the old |
| OutboxReadRepository.RowConversion | src/Infrastructure/Persistence/Repositories/OutboxReadRepository.php:24-33 | converting a selected row fails exactly when its id is not a UUID, and otherwise yields the row's entity |
| OutboxReadRepository.OldestExists | src/Infrastructure/Persistence/Repositories/OutboxReadRepository.php:15-22 | a non-empty set of rows has an oldest member |
| OutboxReadRepository.SelectionStep | src/Infrastructure/Persistence/Repositories/OutboxReadRepository.php:15-22 | taking an oldest remaining PENDING row keeps the partial selection correct |
| OutboxReadRepository.SelectionDone | src/Infrastructure/Persistence/Repositories/OutboxReadRepository.php:15-22 | a selection stopped by the limit or by running out of rows is a correct batch |
| OutboxReadRepository.SelectPending | src/Infrastructure/Persistence/Repositories/OutboxReadRepository.php:15-22 | returns distinct PENDING ids, oldest first, min(limit, #PENDING) of them, with no omitted PENDING row older than a returned one |
| OutboxReadRepository.FindPendingEvents | src/Infrastructure/Persistence/Repositories/OutboxReadRepository.php:13-34 | a negative limit fails; otherwise the events are a correct batch in order, all PENDING and ordered by creation time; it fails exactly when a selected id is not a UUID |
| CommandInboxReadRepository.RowRecordTexts | src/Infrastructure/Persistence/Repositories/CommandInboxReadRepository.php:23-38 | the identifying and text columns of a row are copied into the array |
| CommandInboxReadRepository.RowRecordOptionals | src/Infrastructure/Persistence/Repositories/CommandInboxReadRepository.php:23-38 | the nullable and date-time columns of a row are copied into the array |
| CommandInboxReadRepository.RowReadBack | src/Infrastructure/Persistence/Repositories/CommandInboxReadRepository.php:23-38 | a row with a UUID id converts to the entity with the row's columns |
| CommandInboxReadRepository.RowConversion | src/Infrastructure/Persistence/Repositories/CommandInboxReadRepository.php:23-38 | converting a row fails exactly when its id is not a UUID |
| CommandInboxReadRepository.FindByCommandId | src/Infrastructure/Persistence/Repositories/CommandInboxReadRepository.php:13-39 | null exactly when no row has the id; otherwise the row's entity, whose id is the one asked for; raises exactly on a malformed id |
| OutboxQueuePublisher.ResolveJobClass | src/Infrastructure/Queue/OutboxQueuePublisher.php:66-73 | the routing table's job class, or "Unsupported command type: " with the type exactly when the type is unrouted |
| OutboxQueuePublisher.ExtractJobParameters | src/Infrastructure/Queue/OutboxQueuePublisher.php:99-127 | the match succeeds exactly on routed command types and yields as many arguments as the job class takes |
| OutboxQueuePublisher.JobFromArgs | src/Infrastructure/Queue/OutboxQueuePublisher.php:89-96 | binding the arguments positionally builds a job of the requested class |
| OutboxQueuePublisher.Instantiate | src/Infrastructure/Queue/OutboxQueuePublisher.php:89-96 | construction raises exactly on too few arguments; the argument after the job's own fills the command id |
| OutboxQueuePublisher.CreateJobInstance | src/Infrastructure/Queue/OutboxQueuePublisher.php:75-97 | an unrouted command type raises; for the routed job class the construction succeeds with the request's identification and payload, and the command id in its own slot |
| OutboxQueuePublisher.CreateJobInstanceCorrect | src/Infrastructure/Queue/OutboxQueuePublisher.php:75-127 | for every routed type, the positional construction never fails; it equals the by-name reference job, with the command id in its slot |
| OutboxQueuePublisher.PayloadArray | src/Infrastructure/Queue/OutboxQueuePublisher.php:40-42 | a decoded payload is used as it is; a text payload is decoded, and a text that does not decode makes the call fail |
| OutboxQueuePublisher.BuildTask | src/Infrastructure/Queue/OutboxQueuePublisher.php:35-54 | unsupported event types and unrouted command types raise their errors; otherwise the task carries the record's fields, payload, job and id exactly when the payload decodes |
| OutboxQueuePublisher.OnlyCancellationUnrouted | src/Infrastructure/Queue/OutboxQueuePublisher.php:21-28 | of the supported event types, exactly the cancellation has no route |
| OutboxQueuePublisher.RebuiltTask | src/Infrastructure/Queue/OutboxQueuePublisher.php:35-127 | rebuilding the task later, after a status change, succeeds or fails as before; only the job can differ, and only by a defaulted `reportedAt` taking the new clock reading |
| OutboxQueuePublisher.CancellationUnrouted | src/Infrastructure/Queue/OutboxQueuePublisher.php:66-73 | building a cancellation always fails with "Unsupported command type: cancel_occurrence" |
| OutboxQueuePublisher.Published | src/Infrastructure/Queue/OutboxQueuePublisher.php:35-64 | exactly one task is appended when the build and the dispatch both succeed; otherwise the log is unchanged and the first error is raised |
| OutboxQueuePublisher.TaskQueue.constructor | src/Infrastructure/Queue/OutboxQueuePublisher.php:30-33 | the queue starts with no dispatched task |
| OutboxQueuePublisher.TaskQueue.Dispatch | src/Infrastructure/Queue/OutboxQueuePublisher.php:55 | a successful dispatch appends the task; a failing one raises and appends nothing |
| OutboxQueuePublisher.PublishEvent | src/Infrastructure/Queue/OutboxQueuePublisher.php:35-64 | the queue log and the answer are `Published` of the old log and the built task |
| ProcessOutboxCommand.IsTemporaryFailure | src/Infrastructure/Console/Commands/ProcessOutboxCommand.php:186-206 | true exactly when the lower-cased message contains one of the seven temporary patterns |
| ProcessOutboxCommand.TransientInContext | src/Infrastructure/Console/Commands/ProcessOutboxCommand.php:186-206 | a transient message stays transient when wrapped in more text |
| ProcessOutboxCommand.NoPatternWithout | src/Infrastructure/Console/Commands/ProcessOutboxCommand.php:190-198 | a lower-cased text lacking i, w, f and q contains no temporary pattern |
| ProcessOutboxCommand.PermanentWithout | src/Infrastructure/Console/Commands/ProcessOutboxCommand.php:186-206 | a message without i, w, f and q in either case is permanent |
| ProcessOutboxCommand.CancellationMessageAlphabet | src/Infrastructure/Queue/OutboxQueuePublisher.php:66-73 | the letters the cancellation error is made of |
| ProcessOutboxCommand.CancellationErrorPermanent | src/Infrastructure/Console/Commands/ProcessOutboxCommand.php:186-206 | the cancellation error is never classified as transient |
| ProcessOutboxCommand.MarkFailedStep | src/Infrastructure/Console/Commands/ProcessOutboxCommand.php:119-124 | either `markAsFailed` raises with its error and nothing changes, or the outcome is 'failed' and only the row's status changes, to FAILED; no row is added or removed, and the inbox and tasks are kept |
| ProcessOutboxCommand.Resolve | src/Infrastructure/Console/Commands/ProcessOutboxCommand.php:111-141 | the lookup fails exactly on a lookup error or a malformed id; the record is missing exactly when absent; the task is built exactly when the record exists and the event type is supported |
| ProcessOutboxCommand.ResetToPending | src/Infrastructure/Console/Commands/ProcessOutboxCommand.php:160-171 | only the row's status changes, back to PENDING; keys unchanged |
| ProcessOutboxCommand.OutboxProcessor.constructor | src/Infrastructure/Console/Commands/ProcessOutboxCommand.php:28-37 | the processor is wired to the given tables and queue |
| ProcessOutboxCommand.OutboxProcessor.Handle | src/Infrastructure/Console/Commands/ProcessOutboxCommand.php:39-99 | FAILURE exactly when the fetch fails, and then nothing changes and the counters are zero; otherwise it fetches a correct batch and the store and counters are `RunBatch` of it, each event with its own clock reading |
| ProcessOutboxCommand.OutboxProcessor.ProcessBatch | src/Infrastructure/Console/Commands/ProcessOutboxCommand.php:65-85 | every event is processed in order and errors are counted as failed: the store and counters are `RunBatch` |
| ProcessOutboxCommand.OutboxProcessor.ProcessEvent | src/Infrastructure/Console/Commands/ProcessOutboxCommand.php:101-184 | the store and the outcome are `ProcessEventSpec` of the old store |
| ProcessOutboxCommand.OutboxProcessor.Publish | src/Infrastructure/Console/Commands/ProcessOutboxCommand.php:110-153 | the `try` block: the store and outcome are `TryStep` of the resolution |
| ProcessOutboxCommand.OutboxProcessor.Deliver | src/Infrastructure/Console/Commands/ProcessOutboxCommand.php:141-153 | publish then acknowledge: `DeliverStep` of the built task |
| ProcessOutboxCommand.OutboxProcessor.Acknowledge | src/Infrastructure/Console/Commands/ProcessOutboxCommand.php:143-153 | ENQUEUED then SENT, either update may raise: `AcknowledgeStep` |
| ProcessOutboxCommand.OutboxProcessor.Recover | src/Infrastructure/Console/Commands/ProcessOutboxCommand.php:154-183 | the `catch` block: `CatchStep` of the message |
| ProcessOutboxCommand.OutboxProcessor.MarkFailed | src/Infrastructure/Console/Commands/ProcessOutboxCommand.php:174-182 | `MarkFailedStep` |
| OutboxRelayProperties.ClaimNotGranted | src/Infrastructure/Console/Commands/ProcessOutboxCommand.php:103-108 | a row that is not PENDING is left alone and the event is skipped (or the claim's error raised) |
| OutboxRelayProperties.AcknowledgeShape | src/Infrastructure/Console/Commands/ProcessOutboxCommand.php:143-153 | 'sent' exactly when neither update raises; nothing is dispatched; on success the record is ENQUEUED and the row SENT |
| OutboxRelayProperties.DeliverShape | src/Infrastructure/Console/Commands/ProcessOutboxCommand.php:141-153 | 'sent' exactly when the build, the dispatch and both updates succeed; a failed build or dispatch changes nothing |
| OutboxRelayProperties.TryOutcomes | src/Infrastructure/Console/Commands/ProcessOutboxCommand.php:110-153 | the `try` block never skips; 'sent' exactly on a clean delivery; 'failed' only for a missing record or unsupported type |
| OutboxRelayProperties.TryEffects | src/Infrastructure/Console/Commands/ProcessOutboxCommand.php:110-153 | the inbox changes only by the ENQUEUED update, the queue only by the one task |
| OutboxRelayProperties.Caught | src/Infrastructure/Console/Commands/ProcessOutboxCommand.php:154-183 | a transient error requeues the row, any other marks it FAILED, never 'sent'; the tasks and inbox are kept |
| OutboxRelayProperties.AfterClaim | src/Infrastructure/Console/Commands/ProcessOutboxCommand.php:101-184 | once claimed, the outcome is the `try` block settled by the `catch` block on the PROCESSING row |
| OutboxRelayProperties.SentOutcome | src/Infrastructure/Console/Commands/ProcessOutboxCommand.php:141-153 | 'sent' implies no fault, a claimable row, a built task, and exactly one more task, ENQUEUED record and SENT row |
| OutboxRelayProperties.Delivered | src/Infrastructure/Console/Commands/ProcessOutboxCommand.php:141-153 | without faults a claimable row with a built task is delivered |
| OutboxRelayProperties.RejectedMarksFailed | src/Infrastructure/Console/Commands/ProcessOutboxCommand.php:113-139 | a missing record or unsupported type dispatches nothing and marks the row FAILED |
| OutboxRelayProperties.PublishFailureSettled | src/Infrastructure/Console/Commands/ProcessOutboxCommand.php:154-183 | a failed build or dispatch appends no task and sends the row to PENDING or FAILED by the message's class |
| OutboxRelayProperties.AcknowledgeFailureRequeues | src/Infrastructure/Console/Commands/ProcessOutboxCommand.php:141-171 | a transient error after the dispatch leaves the task queued and the row PENDING again |
| OutboxRelayProperties.DuplicateDelivery | src/Infrastructure/Console/Commands/ProcessOutboxCommand.php:141-171 | then the next clean run claims the row again and dispatches a second task for the same command, whatever the rebuilt task is |
| OutboxRelayProperties.ResolvedAgain | src/Infrastructure/Console/Commands/ProcessOutboxCommand.php:111-141 | the next run finds the same command again, possibly ENQUEUED meanwhile, and rebuilds its task from the same record |
| OutboxRelayProperties.RedeliveredEvent | src/Infrastructure/Console/Commands/ProcessOutboxCommand.php:101-184 | on concrete events: a transient acknowledgement error means the next clean run dispatches a second task; it differs from the first at most in the job, and only by a defaulted `reportedAt` |
| OutboxRelayProperties.SentIsFinal | src/Infrastructure/Console/Commands/ProcessOutboxCommand.php:103-108 | a row once SENT is never claimed again: any later step leaves the store unchanged |
| OutboxRelayProperties.SkippedOutcome | src/Infrastructure/Console/Commands/ProcessOutboxCommand.php:103-108 | 'skipped' leaves the outbox as it was: an unclaimed row or a requeued one |
| OutboxRelayProperties.FailedOutcome | src/Infrastructure/Console/Commands/ProcessOutboxCommand.php:113-182 | 'failed' means the row was claimable and is now FAILED |
| OutboxRelayProperties.ErrorOutcome | src/Infrastructure/Console/Commands/ProcessOutboxCommand.php:154-183 | an escaped error after the claim leaves the row PROCESSING |
| OutboxRelayProperties.StepEffects | src/Infrastructure/Console/Commands/ProcessOutboxCommand.php:101-184 | one event changes only its own outbox row, at most its record's status, and at most one task |
| OutboxRelayProperties.NotFoundMarksFailed | src/Infrastructure/Console/Commands/ProcessOutboxCommand.php:113-125 | a missing record marks the row FAILED and dispatches nothing |
| OutboxRelayProperties.UnsupportedMarksFailed | src/Infrastructure/Console/Commands/ProcessOutboxCommand.php:127-139 | an unsupported event type marks the row FAILED and dispatches nothing |
| OutboxRelayProperties.CancellationNeverDispatched | src/Domain/Outbox/Services/OutboxEventMapper.php:15 | a cancellation event is never dispatched or sent; with a found record it ends FAILED |
| OutboxRelayProperties.EventDelivered | src/Infrastructure/Console/Commands/ProcessOutboxCommand.php:101-153 | without faults, 'sent' exactly when the row is PENDING, the record is found with a UUID id, the type is routed and the payload decodes |
| OutboxRelayProperties.BatchCounts | src/Infrastructure/Console/Commands/ProcessOutboxCommand.php:65-85 | sent ≤ processed ≤ batch size; sent + failed ≤ batch size; every event is counted |
| OutboxRelayProperties.BatchTasks | src/Infrastructure/Console/Commands/ProcessOutboxCommand.php:65-85 | a run only appends to the queue, at least one task per 'sent' and at most one per event |
| OutboxRelayProperties.TasksStep | src/Infrastructure/Console/Commands/ProcessOutboxCommand.php:65-85 | one more event keeps the queue a prefix-extension with at least one task per 'sent' and at most one per event |
| OutboxRelayProperties.SettledKeptStep | src/Infrastructure/Persistence/Repositories/OutboxWriteRepository.php:48-58 | SENT and FAILED rows stay as they are across one more step |
| OutboxRelayProperties.EventRowStep | src/Infrastructure/Console/Commands/ProcessOutboxCommand.php:101-184 | one event touches only its row, and leaves a SENT or FAILED row alone |
| OutboxRelayProperties.BatchKeepsSettled | src/Infrastructure/Console/Commands/ProcessOutboxCommand.php:65-85 | a run never changes a SENT or FAILED row |
| OutboxRelayProperties.BatchTouchesOnlyItsRows | src/Infrastructure/Console/Commands/ProcessOutboxCommand.php:65-85 | a run changes only the rows of its own events and adds none |
| OutboxRelayProperties.EventIdsLast | src/Infrastructure/Console/Commands/ProcessOutboxCommand.php:65 | the ids of a batch are those of its prefix plus the last one |
| OutboxRelayProperties.EnqueuedOnlyStep | src/Infrastructure/Persistence/Repositories/CommandInboxWriteRepository.php:12-23 | the only inbox change, RECEIVED to ENQUEUED, composes |
| OutboxRelayProperties.BatchInbox | src/Infrastructure/Console/Commands/ProcessOutboxCommand.php:65-85 | a run changes the inbox only by moving records from RECEIVED to ENQUEUED, with `updated_at` set to one of its events' clock readings |

## Left out

- Concurrency: the `FOR UPDATE SKIP LOCKED` locking of the fetch and the interleaving of relays running side by side are not modelled. Events run one at a time, and `Claim` is the atomic conditional update that keeps two relays from taking the same row.
- The polling driver `OutboxProcessorCommand.php` (a loop that calls `outbox:process` and sleeps) is not part of this model. It is I/O and timing only.
- Logging and console output in `handle` and `processEvent` are left out. They change no state.
- The clock is an input (`Env.now`, `Env.nowIso`). Identifier generation is an input (`freshId`).
- ProcessOutboxCommand.RunBatch: each event of a run has its own clock reading, but within one event a single reading serves `markAsEnqueued`, `markAsSent` and a defaulted `reportedAt`. The source calls `now()` anew at each of these.
- The JSON decoder is an input (`Env.decode`). Payload values are modelled as strings only, not nested JSON.
- Container wiring, configuration and the repository interfaces are left out. The option defaults (batch size 100, 3 retries) only feed `handle`'s arguments.
- The job classes are left out beyond their constructors' parameter lists. What a job does on the worker is outside the relay.
- OutboxQueuePublisher.JobClass: the constructors of the start-occurrence, resolve-occurrence and update-dispatch-status jobs are not part of this model. Their arities are taken from the argument arrays that `extractJobParameters` builds for them (`OutboxQueuePublisher.php:99-127`). `CreateJobInstanceCorrect` relies on those arities.
- `maxRetries`: the `--max-retries` option's help text (`ProcessOutboxCommand.php:22-23`) promises a cap on attempts before FAILED. The code never applies it: the value is passed down and never read, and no retry counter exists. A message that stays transient therefore moves the row PENDING, then PROCESSING, then PENDING again on every run, without end (`Caught`). The model follows the code.
- Uuids.FromString: the identifier library's exact validity rule is not part of this model. It is approximated by the canonical 36-character hyphenated hexadecimal form, and the text is kept as given rather than normalised to lower case.
- OutboxEventEntity.RoundTrip and CommandEntity.RoundTrip: date-times are instants without a zone. `Y-m-d H:i:s` writes no offset and `new DateTimeImmutable(...)` parses in PHP's default zone, so the source's round trip also needs each date-time to be in the default zone and outside a repeated daylight-saving hour.
- OutboxQueuePublisher.PayloadArray: the type-error text is the class-qualified prefix up to "null given". PHP names the actual type, such as "int given" for a text that decodes to a scalar, and appends ", called in <path> on line 44". Neither part is modelled. `IsTemporaryFailure` searches the whole text, so in the source an install path containing "network" or "connection" would make this failure transient. The model classifies the prefix alone.
- OutboxEventEntity.FromArray and CommandEntity.FromArray: when several fields are bad, the model reports the first in column order. The runtime's type-error wording is paraphrased.
- ProcessOutboxCommand.OutboxProcessor.ProcessEvent: which store call fails is an input (`Faults`). One `markFailed` fault stands for every `markAsFailed` call of the same event.
- OutboxWriteRepository.OutboxTable.MarkAsFailed: the `reason` argument is accepted and dropped, as the source does, so no error text is stored.
- OutboxQueuePublisher.TaskQueue: the queue is the log of dispatched tasks. Queue connections, delays and serialization are left out.
