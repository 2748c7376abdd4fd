/** The relay itself: the `outbox:process` console command. One run reads a
    batch of PENDING outbox rows, and for each one claims it, looks up the
    command it refers to, publishes a job for it and records the result in
    both tables. Every store call may raise; which of them raise in a given
    run is a parameter (`Faults`), and so are the clock and the JSON decoder
    (`Env`). */
module ProcessOutboxCommand {
  import opened Wrappers
  import opened Text
  import opened Uuids
  import Schema
  import opened OutboxEventEntity
  import CommandEntity
  import OutboxEventMapper
  import OW = OutboxWriteRepository
  import IW = CommandInboxWriteRepository
  import OR = OutboxReadRepository
  import IR = CommandInboxReadRepository
  import opened OutboxQueuePublisher

  /** Exit codes of a console command. */
  const SUCCESS: int := 0
  const FAILURE: int := 1

  /** Substrings that mark an error message as a temporary failure. */
  const TemporaryPatterns: seq<string> :=
    ["connection", "timeout", "unavailable", "network", "refused", "rabbitmq", "amqp"]

  /** A message is transient when its lower-cased text contains one of the
      temporary patterns anywhere. */
  predicate IsTransient(message: string) {
    exists k | 0 <= k < |TemporaryPatterns| :: Contains(Lower(message), TemporaryPatterns[k])
  }

  /** `isTemporaryFailure`: lower-case the message once, then try each
      pattern in turn and stop at the first one found. */
  method IsTemporaryFailure(message: string) returns (temporary: bool)
    ensures temporary <==> IsTransient(message)
  {
    var lowered := Lower(message);
    for k := 0 to |TemporaryPatterns|
      invariant forall j :: 0 <= j < k ==> !Contains(lowered, TemporaryPatterns[j])
    {
      if Contains(lowered, TemporaryPatterns[k]) {
        return true;
      }
    }
    return false;
  }

  /** The classification looks at substrings and ignores case, so a transient
      message stays transient when it is wrapped in more text. */
  lemma TransientInContext(before: string, message: string, after: string)
    requires IsTransient(message)
    ensures IsTransient(before + message + after)
  {
    var k :| 0 <= k < |TemporaryPatterns| && Contains(Lower(message), TemporaryPatterns[k]);
    LowerConcat(before, message);
    LowerConcat(before + message, after);
    ContainsInContext(Lower(before), Lower(message), Lower(after), TemporaryPatterns[k]);
  }

  /** Each temporary pattern holds one of the letters i, w, f and q, so a
      text without all four matches none of them. */
  lemma NoPatternWithout(lowered: string)
    requires 'i' !in lowered && 'w' !in lowered && 'f' !in lowered && 'q' !in lowered
    ensures forall k :: 0 <= k < |TemporaryPatterns| ==> !Contains(lowered, TemporaryPatterns[k])
  {
    MissingCharNotContained(lowered, "connection", 'i');
    MissingCharNotContained(lowered, "timeout", 'i');
    MissingCharNotContained(lowered, "unavailable", 'i');
    MissingCharNotContained(lowered, "network", 'w');
    MissingCharNotContained(lowered, "refused", 'f');
    MissingCharNotContained(lowered, "rabbitmq", 'q');
    MissingCharNotContained(lowered, "amqp", 'q');
  }

  /** A message that lacks the letters i, w, f and q in either case is
      permanent. */
  lemma PermanentWithout(message: string)
    requires 'i' !in message && 'I' !in message && 'w' !in message && 'W' !in message
    requires 'f' !in message && 'F' !in message && 'q' !in message && 'Q' !in message
    ensures !IsTransient(message)
  {
    LowerKeepsCharAbsent(message, 'i');
    LowerKeepsCharAbsent(message, 'w');
    LowerKeepsCharAbsent(message, 'f');
    LowerKeepsCharAbsent(message, 'q');
    NoPatternWithout(Lower(message));
  }

  /** The characters the cancellation error is made of. */
  lemma CancellationMessageAlphabet(message: string)
    requires message == UnsupportedCommandType("cancel_occurrence")
    ensures forall c :: c in message ==>
              c in {'U', 'n', 's', 'u', 'p', 'o', 'r', 't', 'e', 'd', ' ', 'c', 'm', 'a', 'y', ':', 'l', '_'}
  {
  }

  /** The error raised for a cancellation event matches no temporary pattern,
      so it is always classified as permanent. */
  lemma CancellationErrorPermanent(message: string)
    requires message == UnsupportedCommandType("cancel_occurrence")
    ensures !IsTransient(message)
  {
    CancellationMessageAlphabet(message);
    PermanentWithout(message);
  }

  /** What `processEvent` returns when it returns normally. */
  datatype Outcome = Sent | Failed | Skipped {
    function Name(): string {
      match this
      case Sent => "sent"
      case Failed => "failed"
      case Skipped => "skipped"
    }
  }

  /** Everything the relay can change: both tables and the submitted tasks. */
  datatype Store = Store(outbox: map<string, Schema.OutboxRow>,
                         inbox: map<string, Schema.InboxRow>,
                         tasks: seq<Task>)

  /** For one event, the error each store call raises, if any. The same
      `markFailed` error is raised by every `markAsFailed` call of the event. */
  datatype Faults = Faults(claim: Option<string>, lookup: Option<string>, markFailed: Option<string>,
                           dispatch: Option<string>, enqueue: Option<string>, markSent: Option<string>,
                           reset: Option<string>)

  const NoFaults: Faults := Faults(None, None, None, None, None, None, None)

  /** The clock reading used for the event (as microseconds and as ISO-8601
      text) and the JSON decoder. */
  datatype Env = Env(now: int, nowIso: string, decode: string -> Option<Document>)

  /** The reason given when the referenced command is absent. */
  const CommandNotFoundPrefix: string := "Command not found: "

  function CommandNotFound(aggregateId: string): string {
    CommandNotFoundPrefix + aggregateId
  }

  /** `markAsFailed`, which either raises and changes nothing, or marks the
      row FAILED and touches no other row, record or task. */
  function MarkFailedStep(s: Store, id: string, f: Faults): (r: (Store, Result<Outcome>))
    ensures r.1.Ok? <==> f.markFailed.None?
    ensures r.1.Ok? ==> r.1.value == Outcome.Failed
    ensures r.1.Err? ==> r.0 == s && r.1.error == f.markFailed.value
    ensures r.0.inbox == s.inbox && r.0.tasks == s.tasks
    ensures r.0.outbox.Keys == s.outbox.Keys
    ensures r.1.Ok? && id in s.outbox ==> r.0.outbox[id] == s.outbox[id].(status := Schema.OutboxStatus.Failed)
    ensures forall k :: k in s.outbox && k != id ==> r.0.outbox[k] == s.outbox[k]
  {
    if f.markFailed.Some? then (s, Err(f.markFailed.value))
    else (s.(outbox := OW.MarkedFailed(s.outbox, id)), Ok(Failed))
  }

  /** What the `try` block learns before it publishes: the error the lookup
      raised, a missing command, an event type the mapper rejects, or the
      found command's id with the task `publishEvent` builds for it (or the
      error building raises). */
  datatype Resolution =
    | LookupFailed(error: string)
    | Missing
    | Unsupported
    | Found(commandId: string, built: Result<Task>)

  /** Look up the command the event refers to, check the event type, and
      build the task. */
  function Resolve(inbox: Schema.InboxRows, e: OutboxEvent, f: Faults, env: Env): (r: Resolution)
    ensures r.LookupFailed? <==> f.lookup.Some? || IR.FindByCommandId(inbox, e.aggregateId).Err?
    ensures r == Missing <==> f.lookup.None? && e.aggregateId !in inbox
    ensures r.Found? <==> f.lookup.None? && e.aggregateId in inbox && WellFormed(e.aggregateId)
                          && OutboxEventMapper.IsSupported(e.eventType)
    ensures r.Found? ==> r.commandId == e.aggregateId
    ensures r.Found? ==> r.built == BuildTask(e, IR.FindByCommandId(inbox, e.aggregateId).value.value, env.decode, env.nowIso)
  {
    if f.lookup.Some? then LookupFailed(f.lookup.value)
    else match IR.FindByCommandId(inbox, e.aggregateId)
      case Err(m) => LookupFailed(m)
      case Ok(None) => Missing
      case Ok(Some(c)) =>
        if !OutboxEventMapper.IsSupported(e.eventType) then Unsupported
        else Found(c.id.text, BuildTask(e, c, env.decode, env.nowIso))
  }

  /** The body of the `try` block for the row `id`, after a successful claim:
      a missing command or an unsupported event type marks the row FAILED, a
      found one is delivered. A raised error leaves behind whatever was done
      before it. */
  function TryStep(s: Store, id: string, res: Resolution, f: Faults, now: int): (Store, Result<Outcome>) {
    match res
    case LookupFailed(m) => (s, Err(m))
    case Missing => MarkFailedStep(s, id, f)
    case Unsupported => MarkFailedStep(s, id, f)
    case Found(commandId, built) => DeliverStep(s, id, commandId, built, f, now)
  }

  /** The rest of the `try` block: publish, then acknowledge. */
  function DeliverStep(s: Store, id: string, commandId: string, built: Result<Task>, f: Faults, now: int): (Store, Result<Outcome>) {
    var published := Published(s.tasks, built, f.dispatch);
    if published.1.Err? then (s, Err(published.1.error))
    else AcknowledgeStep(s.(tasks := published.0), id, commandId, f, now)
  }

  /** After a successful publish: mark the command ENQUEUED (its answer is
      not looked at), then the row SENT. */
  function AcknowledgeStep(s: Store, id: string, commandId: string, f: Faults, now: int): (Store, Result<Outcome>) {
    if f.enqueue.Some? then (s, Err(f.enqueue.value))
    else
      var s1 := s.(inbox := IW.MarkEnqueued(s.inbox, commandId, now).1);
      if f.markSent.Some? then (s1, Err(f.markSent.value))
      else (s1.(outbox := OW.MarkedSent(s1.outbox, id, now)), Ok(Sent))
  }

  /** The direct table update of the catch block: only the status column is
      set back to PENDING. */
  function ResetToPending(rows: map<string, Schema.OutboxRow>, id: string): (r: map<string, Schema.OutboxRow>)
    ensures r.Keys == rows.Keys
    ensures id in rows ==> r[id] == rows[id].(status := Schema.Pending)
    ensures forall k :: k in rows && k != id ==> r[k] == rows[k]
  {
    if id in rows then rows[id := rows[id].(status := Schema.Pending)] else rows
  }

  /** The `catch` block: a transient error puts the row back to PENDING for a
      later run, any other marks it FAILED. Either update may itself raise,
      and that error leaves `processEvent`. */
  function CatchStep(s: Store, id: string, message: string, f: Faults): (Store, Result<Outcome>) {
    if IsTransient(message) then
      if f.reset.Some? then (s, Err(f.reset.value))
      else (s.(outbox := ResetToPending(s.outbox, id)), Ok(Skipped))
    else MarkFailedStep(s, id, f)
  }

  /** `processEvent` as a transition of the store. The claim only writes the
      outbox, so what the `try` block resolves from the inbox is the same
      before and after it. */
  function ProcessEventSpec(s: Store, e: OutboxEvent, f: Faults, env: Env): (Store, Result<Outcome>) {
    EventStep(s, e.id.text, Resolve(s.inbox, e, f, env), f, env.now)
  }

  /** Claim the row `id`; a claim that is not granted is reported as
      skipped, and an error from the claim itself is not caught. */
  function EventStep(s: Store, id: string, res: Resolution, f: Faults, now: int): (Store, Result<Outcome>) {
    if f.claim.Some? then (s, Err(f.claim.value))
    else
      var claim := OW.Claim(s.outbox, id);
      if !claim.0 then (s, Ok(Skipped))
      else Settle(TryStep(s.(outbox := claim.1), id, res, f, now), id, f)
  }

  /** The outcome of the `try` block, passed through the `catch` block when
      it raised. */
  function Settle(attempt: (Store, Result<Outcome>), id: string, f: Faults): (Store, Result<Outcome>) {
    if attempt.1.Ok? then attempt else CatchStep(attempt.0, id, attempt.1.error, f)
  }

  /** The counters `handle` reports. */
  datatype Counters = Counters(processed: nat, sent: nat, failed: nat)

  /** How one event's result moves the counters: an error counts as failed
      but not processed; every normal return counts as processed. */
  function Tally(c: Counters, r: Result<Outcome>): Counters {
    match r
    case Err(_) => c.(failed := c.failed + 1)
    case Ok(Sent) => c.(processed := c.processed + 1, sent := c.sent + 1)
    case Ok(Failed) => c.(processed := c.processed + 1, failed := c.failed + 1)
    case Ok(Skipped) => c.(processed := c.processed + 1)
  }

  /** The events of a batch processed in order; `plan(i)` gives the faults
      of the `i`-th event and `clock(i)` the clock reading and decoder it
      sees, so each event reads the clock afresh. */
  function RunBatch(s: Store, events: seq<OutboxEvent>, plan: nat -> Faults, clock: nat -> Env): (Store, Counters)
    decreases |events|
  {
    if |events| == 0 then (s, Counters(0, 0, 0))
    else
      var (s1, c1) := RunBatch(s, events[..|events| - 1], plan, clock);
      var (s2, r) := ProcessEventSpec(s1, events[|events| - 1], plan(|events| - 1), clock(|events| - 1));
      (s2, Tally(c1, r))
  }

  /** The console command, wired to its two tables and the queue. */
  class OutboxProcessor {
    const outbox: OW.OutboxTable
    const inbox: IW.InboxTable
    const queue: TaskQueue

    constructor(outbox: OW.OutboxTable, inbox: IW.InboxTable, queue: TaskQueue)
      ensures this.outbox == outbox && this.inbox == inbox && this.queue == queue
    {
      this.outbox := outbox;
      this.inbox := inbox;
      this.queue := queue;
    }

    ghost function Snapshot(): Store
      reads outbox, inbox, queue
    {
      Store(outbox.rows, inbox.rows, queue.dispatched)
    }

    /** `handle`: fetch a batch and process each event in turn. An error from
        the fetch ends the run with FAILURE before anything is written; an
        error from one event is counted and the run goes on. `maxRetries`
        is passed down and not used. */
    method Handle(batchSize: int, maxRetries: int, fetchFault: Option<string>, plan: nat -> Faults, clock: nat -> Env)
      returns (exitCode: int, counters: Counters, ghost events: seq<OutboxEvent>, ghost ids: seq<string>)
      modifies outbox, inbox, queue
      ensures exitCode == FAILURE <==>
                fetchFault.Some? || batchSize < 0 || exists i :: 0 <= i < |ids| && !WellFormed(ids[i])
      ensures exitCode == SUCCESS <==> exitCode != FAILURE
      ensures exitCode == FAILURE ==> Snapshot() == old(Snapshot()) && counters == Counters(0, 0, 0)
      ensures exitCode == SUCCESS ==> OR.PendingBatch(old(outbox.rows), batchSize, ids)
      ensures exitCode == SUCCESS ==> |events| == |ids|
      ensures exitCode == SUCCESS ==>
                forall i :: 0 <= i < |ids| ==> events[i] == OR.RowEvent(ids[i], old(outbox.rows)[ids[i]])
      ensures exitCode == SUCCESS ==> (Snapshot(), counters) == RunBatch(old(Snapshot()), events, plan, clock)
    {
      counters, events, ids := Counters(0, 0, 0), [], [];
      if fetchFault.Some? {
        return FAILURE, counters, events, ids;
      }
      var fetched;
      fetched, ids := OR.FindPendingEvents(outbox.rows, batchSize);
      if fetched.Err? {
        return FAILURE, counters, events, ids;
      }
      var batch := fetched.value;
      events := batch;
      exitCode := SUCCESS;
      if |batch| == 0 {
        return;
      }
      counters := ProcessBatch(batch, maxRetries, plan, clock);
    }

    /** The `foreach` loop of `handle`: every event is processed, and an error
        from one of them is counted as failed without stopping the loop. */
    method ProcessBatch(batch: seq<OutboxEvent>, maxRetries: int, plan: nat -> Faults, clock: nat -> Env) returns (counters: Counters)
      modifies outbox, inbox, queue
      ensures (Snapshot(), counters) == RunBatch(old(Snapshot()), batch, plan, clock)
    {
      ghost var s0 := Snapshot();
      var processed: nat, sent: nat, failed: nat := 0, 0, 0;
      for i := 0 to |batch|
        invariant (Snapshot(), Counters(processed, sent, failed)) == RunBatch(s0, batch[..i], plan, clock)
      {
        ghost var before := Counters(processed, sent, failed);
        var result := ProcessEvent(batch[i], maxRetries, plan(i), clock(i));
        match result {
          case Err(_) =>
            failed := failed + 1;
          case Ok(outcome) =>
            if outcome == Sent {
              sent := sent + 1;
            } else if outcome == Failed {
              failed := failed + 1;
            }
            processed := processed + 1;
        }
        assert Counters(processed, sent, failed) == Tally(before, result);
        assert batch[..i + 1][..i] == batch[..i];
      }
      assert batch[..|batch|] == batch;
      counters := Counters(processed, sent, failed);
    }

    /** `processEvent`: claim the row, then run the `try` block and, if it
        raised, the `catch` block. */
    method ProcessEvent(e: OutboxEvent, maxRetries: int, f: Faults, env: Env) returns (r: Result<Outcome>)
      modifies outbox, inbox, queue
      ensures (Snapshot(), r) == ProcessEventSpec(old(Snapshot()), e, f, env)
    {
      if f.claim.Some? {
        return Err(f.claim.value);
      }
      var claimed := outbox.MarkAsProcessing(e.id.text);
      if !claimed {
        return Ok(Skipped);
      }
      r := Publish(e, f, env);
      if r.Err? {
        r := Recover(e.id.text, r.error, f);
      }
    }

    /** The `try` block of `processEvent`. */
    method Publish(e: OutboxEvent, f: Faults, env: Env) returns (r: Result<Outcome>)
      modifies outbox, inbox, queue
      ensures (Snapshot(), r) == TryStep(old(Snapshot()), e.id.text, Resolve(old(inbox.rows), e, f, env), f, env.now)
    {
      if f.lookup.Some? {
        return Err(f.lookup.value);
      }
      var found := IR.FindByCommandId(inbox.rows, e.aggregateId);
      if found.Err? {
        return Err(found.error);
      }
      if found.value.None? {
        r := MarkFailed(e.id.text, CommandNotFound(e.aggregateId), f);
        return;
      }
      var command := found.value.value;
      if !OutboxEventMapper.IsSupported(e.eventType) {
        r := MarkFailed(e.id.text, OutboxEventMapper.UnsupportedEventType(e.eventType), f);
        return;
      }
      r := Deliver(e, command, f, env);
    }

    /** Publish, then acknowledge. */
    method Deliver(e: OutboxEvent, command: CommandEntity.Command, f: Faults, env: Env) returns (r: Result<Outcome>)
      modifies outbox, inbox, queue
      ensures (Snapshot(), r) ==
                DeliverStep(old(Snapshot()), e.id.text, command.id.text, BuildTask(e, command, env.decode, env.nowIso), f, env.now)
    {
      var published := PublishEvent(queue, e, command, env.decode, env.nowIso, f.dispatch);
      if published.Err? {
        return Err(published.error);
      }
      r := Acknowledge(e.id.text, command.id.text, f, env.now);
    }

    /** Mark the command ENQUEUED and the row SENT. */
    method Acknowledge(id: string, commandId: string, f: Faults, now: int) returns (r: Result<Outcome>)
      modifies outbox, inbox
      ensures (Snapshot(), r) == AcknowledgeStep(old(Snapshot()), id, commandId, f, now)
    {
      if f.enqueue.Some? {
        return Err(f.enqueue.value);
      }
      var enqueued := inbox.MarkAsEnqueued(commandId, now);
      if f.markSent.Some? {
        return Err(f.markSent.value);
      }
      outbox.MarkAsSent(id, now);
      r := Ok(Sent);
    }

    /** The `catch` block of `processEvent`. */
    method Recover(id: string, message: string, f: Faults) returns (r: Result<Outcome>)
      modifies outbox
      ensures (Snapshot(), r) == CatchStep(old(Snapshot()), id, message, f)
    {
      var temporary := IsTemporaryFailure(message);
      if temporary {
        if f.reset.Some? {
          return Err(f.reset.value);
        }
        if id in outbox.rows {
          outbox.rows := outbox.rows[id := outbox.rows[id].(status := Schema.Pending)];
        }
        return Ok(Skipped);
      }
      r := MarkFailed(id, message, f);
    }

    /** `markAsFailed` with its reason, or the error it raises. */
    method MarkFailed(id: string, reason: string, f: Faults) returns (r: Result<Outcome>)
      modifies outbox
      ensures (Snapshot(), r) == MarkFailedStep(old(Snapshot()), id, f)
    {
      if f.markFailed.Some? {
        return Err(f.markFailed.value);
      }
      outbox.MarkAsFailed(id, Some(reason));
      r := Ok(Failed);
    }
  }
}
