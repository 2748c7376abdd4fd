/** The command publisher: turns an outbox event and its inbox record into
    one task on the downstream queue. The queue is represented by the log of
    dispatched tasks; decoding the JSON payload is a library call and is
    passed in as `decode` (None standing for a text that does not decode to
    an object of strings). */
module OutboxQueuePublisher {
  import opened Wrappers
  import opened OutboxEventEntity
  import opened CommandEntity
  import OutboxEventMapper

  type Document = map<string, string>

  /** The six job classes the publisher can construct. */
  datatype JobClass =
    | CreateOccurrenceJob
    | StartOccurrenceJob
    | ResolveOccurrenceJob
    | CreateDispatchJob
    | CloseDispatchJob
    | UpdateDispatchStatusJob
  {
    function Name(): string {
      match this
      case CreateOccurrenceJob => "ProcessCreateOccurrenceJob"
      case StartOccurrenceJob => "ProcessStartOccurrenceJob"
      case ResolveOccurrenceJob => "ProcessResolveOccurrenceJob"
      case CreateDispatchJob => "ProcessCreateDispatchJob"
      case CloseDispatchJob => "ProcessCloseDispatchJob"
      case UpdateDispatchStatusJob => "ProcessUpdateDispatchStatusJob"
    }

    /** How many job-specific constructor parameters come after the five
        common ones and before the optional command id. */
    function Arity(): nat {
      match this
      case CreateOccurrenceJob => 4
      case StartOccurrenceJob => 1
      case ResolveOccurrenceJob => 1
      case CreateDispatchJob => 2
      case CloseDispatchJob => 1
      case UpdateDispatchStatusJob => 2
    }
  }

  /** The job-specific fields of a task, one variant per job class. */
  datatype Job =
    | CreateOccurrence(externalId: string, occurrenceType: string, description: string, reportedAt: string)
    | StartOccurrence(occurrenceId: string)
    | ResolveOccurrence(occurrenceId: string)
    | CreateDispatch(occurrenceId: string, resourceCode: string)
    | CloseDispatch(dispatchId: string)
    | UpdateDispatchStatus(dispatchId: string, statusCode: string)
  {
    function Class(): JobClass {
      match this
      case CreateOccurrence(_, _, _, _) => CreateOccurrenceJob
      case StartOccurrence(_) => StartOccurrenceJob
      case ResolveOccurrence(_) => ResolveOccurrenceJob
      case CreateDispatch(_, _) => CreateDispatchJob
      case CloseDispatch(_) => CloseDispatchJob
      case UpdateDispatchStatus(_, _) => UpdateDispatchStatusJob
    }
  }

  /** A queued task: the request's identification, the full decoded payload,
      the job-specific fields and the command id. */
  datatype Task = Task(
    idempotencyKey: string,
    source: string,
    requestType: string,
    scopeKey: string,
    payload: Document,
    job: Job,
    commandId: Option<string>)

  const CommandToJobMap: map<string, JobClass> := map[
    "create_occurrence" := CreateOccurrenceJob,
    "start_occurrence" := StartOccurrenceJob,
    "resolve_occurrence" := ResolveOccurrenceJob,
    "create_dispatch" := CreateDispatchJob,
    "close_dispatch" := CloseDispatchJob,
    "update_dispatch_status" := UpdateDispatchStatusJob
  ]

  const UnsupportedCommandTypePrefix: string := "Unsupported command type: "

  function UnsupportedCommandType(commandType: string): string {
    UnsupportedCommandTypePrefix + commandType
  }

  const TooFewArgumentsPrefix: string := "Too few arguments to function "
  const ConstructorSuffix: string := "::__construct()"

  /** `resolveJobClass`: the routing table's entry, or an invalid-argument
      error naming the command type. */
  function ResolveJobClass(commandType: string): (r: Result<JobClass>)
    ensures r.Ok? <==> commandType in CommandToJobMap
    ensures r.Ok? ==> r.value == CommandToJobMap[commandType]
    ensures r.Err? ==> r.error == UnsupportedCommandType(commandType)
  {
    if commandType in CommandToJobMap then Ok(CommandToJobMap[commandType])
    else Err(UnsupportedCommandType(commandType))
  }

  /** `$payload[key] ?? default`: an absent key never raises. */
  function Field(payload: Document, key: string, default: string): string {
    if key in payload then payload[key] else default
  }

  /** `extractJobParameters`: the positional job-specific arguments for a
      command type. The match arms cover exactly the routed command types, so
      its default arm is unreachable once `resolveJobClass` has succeeded, and
      each arm yields as many arguments as its job class declares. */
  function ExtractJobParameters(commandType: string, payload: Document, nowIso: string): (r: Result<seq<string>>)
    ensures r.Ok? <==> ResolveJobClass(commandType).Ok?
    ensures r.Ok? ==> |r.value| == CommandToJobMap[commandType].Arity()
    ensures r.Err? ==> r.error == UnsupportedCommandType(commandType)
  {
    if commandType == "create_occurrence" then
      Ok([Field(payload, "externalId", ""), Field(payload, "type", ""),
          Field(payload, "description", ""), Field(payload, "reportedAt", nowIso)])
    else if commandType == "start_occurrence" then
      Ok([Field(payload, "occurrenceId", "")])
    else if commandType == "resolve_occurrence" then
      Ok([Field(payload, "occurrenceId", "")])
    else if commandType == "create_dispatch" then
      Ok([Field(payload, "occurrenceId", ""), Field(payload, "resourceCode", "")])
    else if commandType == "close_dispatch" then
      Ok([Field(payload, "dispatchId", "")])
    else if commandType == "update_dispatch_status" then
      Ok([Field(payload, "dispatchId", ""), Field(payload, "statusCode", "")])
    else
      Err(UnsupportedCommandType(commandType))
  }

  /** The job-specific constructor parameters bound positionally. */
  function JobFromArgs(jobClass: JobClass, args: seq<string>): (j: Job)
    requires |args| >= jobClass.Arity()
    ensures j.Class() == jobClass
  {
    match jobClass
    case CreateOccurrenceJob => CreateOccurrence(args[0], args[1], args[2], args[3])
    case StartOccurrenceJob => StartOccurrence(args[0])
    case ResolveOccurrenceJob => ResolveOccurrence(args[0])
    case CreateDispatchJob => CreateDispatch(args[0], args[1])
    case CloseDispatchJob => CloseDispatch(args[0])
    case UpdateDispatchStatusJob => UpdateDispatchStatus(args[0], args[1])
  }

  /** `new $jobClass(common..., ...$args)`: too few arguments raise; the
      argument after the job-specific ones binds the optional command id, and
      any further ones are ignored, as PHP does for user-defined
      constructors. */
  function Instantiate(jobClass: JobClass, idempotencyKey: string, source: string, requestType: string,
                       scopeKey: string, payload: Document, args: seq<string>): (r: Result<Task>)
    ensures r.Ok? <==> |args| >= jobClass.Arity()
    ensures r.Ok? ==> r.value.job.Class() == jobClass
    ensures r.Ok? ==> r.value.commandId == if |args| > jobClass.Arity() then Some(args[jobClass.Arity()]) else None
  {
    if |args| < jobClass.Arity() then
      Err(TooFewArgumentsPrefix + jobClass.Name() + ConstructorSuffix)
    else
      Ok(Task(idempotencyKey, source, requestType, scopeKey, payload, JobFromArgs(jobClass, args),
              if |args| > jobClass.Arity() then Some(args[jobClass.Arity()]) else None))
  }

  /** `createJobInstance`: the extracted arguments with the command id
      appended last. An unrouted command type raises from the extraction;
      for the job class routed to the command type, construction succeeds,
      the task carries the request's identification and payload, and the
      command id lands in its own slot. */
  function CreateJobInstance(jobClass: JobClass, idempotencyKey: string, source: string, requestType: string,
                             scopeKey: string, payload: Document, commandId: string, commandType: string,
                             nowIso: string): (r: Result<Task>)
    ensures commandType !in CommandToJobMap ==> r == Err(UnsupportedCommandType(commandType))
    ensures commandType in CommandToJobMap && jobClass == CommandToJobMap[commandType] ==>
              r.Ok? && r.value.commandId == Some(commandId) && r.value.job.Class() == jobClass
    ensures r.Ok? ==> r.value.idempotencyKey == idempotencyKey && r.value.source == source &&
                      r.value.requestType == requestType && r.value.scopeKey == scopeKey && r.value.payload == payload
  {
    var args :- ExtractJobParameters(commandType, payload, nowIso);
    assert commandType in CommandToJobMap && jobClass == CommandToJobMap[commandType] ==>
             (args + [commandId])[jobClass.Arity()] == commandId;
    Instantiate(jobClass, idempotencyKey, source, requestType, scopeKey, payload, args + [commandId])
  }

  /** The job each routed command type calls for, field by field and by name:
      the reference the positional construction is checked against. An absent
      key yields the empty string, except that a missing `reportedAt` is the
      current time in ISO 8601. */
  function JobFor(commandType: string, payload: Document, nowIso: string): Job
    requires commandType in CommandToJobMap
  {
    match CommandToJobMap[commandType]
    case CreateOccurrenceJob =>
      CreateOccurrence(Field(payload, "externalId", ""), Field(payload, "type", ""),
                       Field(payload, "description", ""), Field(payload, "reportedAt", nowIso))
    case StartOccurrenceJob => StartOccurrence(Field(payload, "occurrenceId", ""))
    case ResolveOccurrenceJob => ResolveOccurrence(Field(payload, "occurrenceId", ""))
    case CreateDispatchJob => CreateDispatch(Field(payload, "occurrenceId", ""), Field(payload, "resourceCode", ""))
    case CloseDispatchJob => CloseDispatch(Field(payload, "dispatchId", ""))
    case UpdateDispatchStatusJob => UpdateDispatchStatus(Field(payload, "dispatchId", ""), Field(payload, "statusCode", ""))
  }

  /** For every routed command type the positional construction never fails,
      fills each job field from the key named for it, and puts the command id
      in the command-id slot. */
  lemma CreateJobInstanceCorrect(commandType: string, idempotencyKey: string, source: string, requestType: string,
                                 scopeKey: string, payload: Document, commandId: string, nowIso: string)
    requires commandType in CommandToJobMap
    ensures CreateJobInstance(CommandToJobMap[commandType], idempotencyKey, source, requestType, scopeKey,
                              payload, commandId, commandType, nowIso)
            == Ok(Task(idempotencyKey, source, requestType, scopeKey, payload,
                       JobFor(commandType, payload, nowIso), Some(commandId)))
  {
    var jobClass := CommandToJobMap[commandType];
    var args := ExtractJobParameters(commandType, payload, nowIso).value;
    assert (args + [commandId])[jobClass.Arity()] == commandId;
    assert JobFromArgs(jobClass, args + [commandId]) == JobFor(commandType, payload, nowIso);
  }

  /** The start of the type error PHP raises when `createJobInstance` gets a
      non-array payload. */
  const NullPayload: string :=
    "Infrastructure\\Queue\\OutboxQueuePublisher::createJobInstance(): Argument #6 ($payload) must be of type array, null given"

  /** The payload as an array: serialized text is decoded; a text that does
      not decode to an array makes the later call raise a type error. */
  function PayloadArray(p: Payload, decode: string -> Option<Document>): (r: Result<Document>)
    ensures p.Decoded? ==> r == Ok(p.fields)
    ensures p.Encoded? ==> (r.Ok? <==> decode(p.json).Some?)
    ensures p.Encoded? && r.Ok? ==> r.value == decode(p.json).value
  {
    match p
    case Decoded(m) => Ok(m)
    case Encoded(json) =>
      match decode(json)
      case None => Err(NullPayload)
      case Some(m) => Ok(m)
  }

  /** Everything `publishEvent` does before the dispatch: the task it would
      submit, or the error it raises. An unsupported event type raises from
      the mapper, an unrouted command type from the routing table. On
      success the task carries the record's identification, the full
      payload, the job fields and the record's id. */
  function BuildTask(e: OutboxEvent, c: Command, decode: string -> Option<Document>, nowIso: string): (r: Result<Task>)
    ensures !OutboxEventMapper.IsSupported(e.eventType) ==>
              r == Err(OutboxEventMapper.UnsupportedEventType(e.eventType))
    ensures OutboxEventMapper.IsSupported(e.eventType) && OutboxEventMapper.EventMap[e.eventType] !in CommandToJobMap ==>
              r == Err(UnsupportedCommandType(OutboxEventMapper.EventMap[e.eventType]))
    ensures r.Ok? <==> (OutboxEventMapper.IsSupported(e.eventType)
                        && OutboxEventMapper.EventMap[e.eventType] in CommandToJobMap
                        && PayloadArray(c.payload, decode).Ok?)
    ensures r.Ok? ==> r.value == Task(c.idempotencyKey, c.source, c.requestType, c.scopeKey,
                                      PayloadArray(c.payload, decode).value,
                                      JobFor(OutboxEventMapper.EventMap[e.eventType], PayloadArray(c.payload, decode).value, nowIso),
                                      Some(c.id.text))
  {
    var commandType :- OutboxEventMapper.Resolve(e.eventType);
    var jobClass :- ResolveJobClass(commandType);
    var payload :- PayloadArray(c.payload, decode);
    CreateJobInstanceCorrect(commandType, c.idempotencyKey, c.source, c.requestType, c.scopeKey, payload, c.id.text, nowIso);
    CreateJobInstance(jobClass, c.idempotencyKey, c.source, c.requestType, c.scopeKey, payload, c.id.text, commandType, nowIso)
  }

  /** Building the task again for the same event and command, at another
      time and after the command's status was updated, succeeds or fails as
      before and differs at most in the job. The job is the same one unless
      the event asks to create an occurrence and the payload has no
      `reportedAt`: that field then takes the new clock reading. */
  lemma RebuiltTask(e: OutboxEvent, c: Command, c': Command, decode: string -> Option<Document>,
                    nowIso: string, nowIso': string)
    requires c' == c.(status := c'.status, updatedAt := c'.updatedAt)
    ensures BuildTask(e, c', decode, nowIso').Ok? <==> BuildTask(e, c, decode, nowIso).Ok?
    ensures BuildTask(e, c', decode, nowIso').Err? ==> BuildTask(e, c', decode, nowIso') == BuildTask(e, c, decode, nowIso)
    ensures BuildTask(e, c', decode, nowIso').Ok? ==>
              BuildTask(e, c', decode, nowIso').value.(job := BuildTask(e, c, decode, nowIso).value.job) ==
              BuildTask(e, c, decode, nowIso).value
    ensures BuildTask(e, c, decode, nowIso).Ok? && e.eventType != "OccurrenceCreateRequested" ==>
              BuildTask(e, c', decode, nowIso') == BuildTask(e, c, decode, nowIso)
    ensures BuildTask(e, c, decode, nowIso).Ok? && "reportedAt" in BuildTask(e, c, decode, nowIso).value.payload ==>
              BuildTask(e, c', decode, nowIso') == BuildTask(e, c, decode, nowIso)
    ensures BuildTask(e, c', decode, nowIso').Ok? && e.eventType == "OccurrenceCreateRequested" &&
            "reportedAt" !in BuildTask(e, c', decode, nowIso').value.payload ==>
              BuildTask(e, c', decode, nowIso').value.job.CreateOccurrence? &&
              BuildTask(e, c', decode, nowIso').value.job.reportedAt == nowIso'
  {
    if BuildTask(e, c, decode, nowIso).Ok? {
      var commandType := OutboxEventMapper.EventMap[e.eventType];
      var payload := PayloadArray(c.payload, decode).value;
      assert commandType == "create_occurrence" <==> e.eventType == "OccurrenceCreateRequested";
      if commandType != "create_occurrence" || "reportedAt" in payload {
        assert JobFor(commandType, payload, nowIso') == JobFor(commandType, payload, nowIso);
      }
    }
  }

  /** The mapper emits one command type the routing table lacks:
      `cancel_occurrence`. Every other supported event type is routed. */
  lemma OnlyCancellationUnrouted(eventType: string)
    requires OutboxEventMapper.IsSupported(eventType)
    ensures OutboxEventMapper.EventMap[eventType] in CommandToJobMap <==> eventType != "OccurrenceCancelledRequested"
  {
  }

  /** So a cancellation request never yields a task, whatever its command
      holds: building raises the routing table's error. */
  lemma CancellationUnrouted(e: OutboxEvent, c: Command, decode: string -> Option<Document>, nowIso: string)
    requires e.eventType == "OccurrenceCancelledRequested"
    ensures BuildTask(e, c, decode, nowIso) == Err(UnsupportedCommandType("cancel_occurrence"))
  {
    OnlyCancellationUnrouted(e.eventType);
    assert OutboxEventMapper.EventMap[e.eventType] == "cancel_occurrence";
  }

  /** The outcome of `publishEvent` on the dispatched-task log, given the
      task it builds (or the error building raises): one more task exactly
      when it returns normally. */
  function Published(tasks: seq<Task>, built: Result<Task>, dispatchFault: Option<string>): (r: (seq<Task>, Result<()>))
    ensures r.1.Ok? <==> built.Ok? && dispatchFault.None?
    ensures r.1.Ok? ==> r.0 == tasks + [built.value]
    ensures r.1.Err? ==> r.0 == tasks
    ensures r.1.Err? ==> r.1.error == if built.Err? then built.error else dispatchFault.value
  {
    match built
    case Err(m) => (tasks, Err(m))
    case Ok(task) =>
      if dispatchFault.Some? then (tasks, Err(dispatchFault.value)) else (tasks + [task], Ok(()))
  }

  /** The downstream queue, seen through the tasks submitted to it. */
  class TaskQueue {
    ghost var dispatched: seq<Task>

    constructor()
      ensures dispatched == []
    {
      dispatched := [];
    }

    /** `dispatch($job)`; `fault` is the error the queue client raises, if any. */
    method Dispatch(task: Task, fault: Option<string>) returns (r: Result<()>)
      modifies this
      ensures fault.None? ==> r == Ok(()) && dispatched == old(dispatched) + [task]
      ensures fault.Some? ==> r == Err(fault.value) && dispatched == old(dispatched)
    {
      if fault.Some? {
        return Err(fault.value);
      }
      dispatched := dispatched + [task];
      r := Ok(());
    }
  }

  /** `publishEvent`: resolve the command type, pick the job class, decode
      the payload, build the task and dispatch it. */
  method PublishEvent(queue: TaskQueue, e: OutboxEvent, c: Command, decode: string -> Option<Document>,
                      nowIso: string, dispatchFault: Option<string>) returns (r: Result<()>)
    modifies queue
    ensures (queue.dispatched, r) == Published(old(queue.dispatched), BuildTask(e, c, decode, nowIso), dispatchFault)
  {
    ghost var built := BuildTask(e, c, decode, nowIso);
    var commandType :- OutboxEventMapper.Resolve(e.eventType);
    var jobClass :- ResolveJobClass(commandType);
    var payload :- PayloadArray(c.payload, decode);
    // The extraction's default arm cannot be reached once the job class is resolved.
    CreateJobInstanceCorrect(commandType, c.idempotencyKey, c.source, c.requestType, c.scopeKey,
                             payload, c.id.text, nowIso);
    var job := CreateJobInstance(jobClass, c.idempotencyKey, c.source, c.requestType, c.scopeKey,
                                 payload, c.id.text, commandType, nowIso).value;
    assert built == Ok(job);
    r := queue.Dispatch(job, dispatchFault);
  }
}
