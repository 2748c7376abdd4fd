/** What one `processEvent` call and one `handle` run promise about the
    two tables and the submitted tasks. Most lemmas are stated for any
    `Resolution`, so they hold whatever the lookup and the task building
    produced; the last ones tie them back to concrete events. */
module OutboxRelayProperties {
  import opened Wrappers
  import Schema
  import OW = OutboxWriteRepository
  import IW = CommandInboxWriteRepository
  import opened Uuids
  import IR = CommandInboxReadRepository
  import opened OutboxEventEntity
  import OutboxEventMapper
  import opened OutboxQueuePublisher
  import opened ProcessOutboxCommand

  /** The row `id` exists and is PENDING, so the claim succeeds. */
  predicate Claimable(s: Store, id: string) {
    id in s.outbox && s.outbox[id].status == Schema.Pending
  }

  /** The row `id` with only its status replaced. */
  function WithStatus(s: Store, id: string, status: Schema.OutboxStatus): map<string, Schema.OutboxRow>
    requires id in s.outbox
  {
    s.outbox[id := s.outbox[id].(status := status)]
  }

  /** The store right after a granted claim. */
  function Claimed(s: Store, id: string): Store
    requires id in s.outbox
  {
    s.(outbox := WithStatus(s, id, Schema.Processing))
  }

  /** The store after a delivery: the row SENT at `now`, the command
      ENQUEUED (when it was RECEIVED) and the built task submitted once. */
  function DeliveredStore(s: Store, id: string, commandId: string, task: Task, now: int): Store
    requires id in s.outbox
  {
    Store(s.outbox[id := s.outbox[id].(status := Schema.Sent, sentAt := Some(now))],
          IW.MarkEnqueued(s.inbox, commandId, now).1,
          s.tasks + [task])
  }

  /** The error a delivery raises before anything is acknowledged. */
  function PublishError(built: Result<Task>, f: Faults): string
    requires built.Err? || f.dispatch.Some?
  {
    if built.Err? then built.error else f.dispatch.value
  }

  // ---------------------------------------------------------------------
  // The claim

  /** A claim that is not granted (the row is missing or no longer PENDING)
      changes nothing and is reported as skipped, unless the claim itself
      raised. */
  lemma ClaimNotGranted(s: Store, id: string, res: Resolution, f: Faults, now: int)
    requires !Claimable(s, id)
    ensures EventStep(s, id, res, f, now).0 == s
    ensures EventStep(s, id, res, f, now).1 == if f.claim.Some? then Err(f.claim.value) else Ok(Skipped)
  {
  }

  // ---------------------------------------------------------------------
  // The `try` block

  /** After a successful publish: SENT only when both acknowledgements
      succeed; the queue is not touched again. */
  lemma AcknowledgeShape(s: Store, id: string, commandId: string, f: Faults, now: int)
    ensures AcknowledgeStep(s, id, commandId, f, now).1 == Ok(Sent) <==> f.enqueue.None? && f.markSent.None?
    ensures AcknowledgeStep(s, id, commandId, f, now).1.Err? <==> !(f.enqueue.None? && f.markSent.None?)
    ensures AcknowledgeStep(s, id, commandId, f, now).0.tasks == s.tasks
    ensures AcknowledgeStep(s, id, commandId, f, now).1.Err? ==> AcknowledgeStep(s, id, commandId, f, now).0.outbox == s.outbox
    ensures AcknowledgeStep(s, id, commandId, f, now).0.inbox == s.inbox ||
            AcknowledgeStep(s, id, commandId, f, now).0.inbox == IW.MarkEnqueued(s.inbox, commandId, now).1
    ensures AcknowledgeStep(s, id, commandId, f, now).1 == Ok(Sent) ==>
              AcknowledgeStep(s, id, commandId, f, now).0 ==
              Store(OW.MarkedSent(s.outbox, id, now), IW.MarkEnqueued(s.inbox, commandId, now).1, s.tasks)
  {
  }

  /** The delivery part of the `try` block: it reports sent exactly when the
      task is built and no queue or store call raises, and then the task is
      appended once; when publishing raises, nothing has changed. */
  lemma DeliverShape(s: Store, id: string, commandId: string, built: Result<Task>, f: Faults, now: int)
    ensures DeliverStep(s, id, commandId, built, f, now).1 != Ok(Skipped)
    ensures DeliverStep(s, id, commandId, built, f, now).1 != Ok(Failed)
    ensures DeliverStep(s, id, commandId, built, f, now).1 == Ok(Sent) <==>
              built.Ok? && f.dispatch.None? && f.enqueue.None? && f.markSent.None?
    ensures built.Err? || f.dispatch.Some? ==>
              DeliverStep(s, id, commandId, built, f, now) == (s, Err(PublishError(built, f)))
    ensures DeliverStep(s, id, commandId, built, f, now).1.Err? ==>
              DeliverStep(s, id, commandId, built, f, now).0.outbox == s.outbox
    ensures DeliverStep(s, id, commandId, built, f, now).0.tasks == s.tasks ||
            (built.Ok? && DeliverStep(s, id, commandId, built, f, now).0.tasks == s.tasks + [built.value])
    ensures DeliverStep(s, id, commandId, built, f, now).0.inbox == s.inbox ||
            DeliverStep(s, id, commandId, built, f, now).0.inbox == IW.MarkEnqueued(s.inbox, commandId, now).1
    ensures DeliverStep(s, id, commandId, built, f, now).1 == Ok(Sent) ==>
              DeliverStep(s, id, commandId, built, f, now).0 ==
              Store(OW.MarkedSent(s.outbox, id, now), IW.MarkEnqueued(s.inbox, commandId, now).1, s.tasks + [built.value])
  {
    var published := Published(s.tasks, built, f.dispatch);
    if published.1.Ok? {
      AcknowledgeShape(s.(tasks := published.0), id, commandId, f, now);
    }
  }

  /** The `try` block never reports skipped; it reports sent only when the
      task was built and no call raised; when it raises, the row is as it
      found it; and marking the row FAILED touches neither the queue nor
      the inbox. */
  lemma TryOutcomes(s: Store, id: string, res: Resolution, f: Faults, now: int)
    ensures TryStep(s, id, res, f, now).1 != Ok(Skipped)
    ensures TryStep(s, id, res, f, now).1 == Ok(Sent) <==>
              res.Found? && res.built.Ok? && f.dispatch.None? && f.enqueue.None? && f.markSent.None?
    ensures TryStep(s, id, res, f, now).1.Err? ==> TryStep(s, id, res, f, now).0.outbox == s.outbox
    ensures TryStep(s, id, res, f, now).1 == Ok(Failed) ==>
              TryStep(s, id, res, f, now).0 == s.(outbox := OW.MarkedFailed(s.outbox, id))
  {
    if res.Found? {
      DeliverShape(s, id, res.commandId, res.built, f, now);
    }
  }

  /** What the `try` block may leave in the queue and the inbox: at most the
      one task built for the event and at most the ENQUEUED mark of its
      command. Reporting sent means both happened and the row is SENT. */
  lemma TryEffects(s: Store, id: string, res: Resolution, f: Faults, now: int)
    ensures TryStep(s, id, res, f, now).0.inbox == s.inbox ||
            (res.Found? && TryStep(s, id, res, f, now).0.inbox == IW.MarkEnqueued(s.inbox, res.commandId, now).1)
    ensures TryStep(s, id, res, f, now).0.tasks == s.tasks ||
            (res.Found? && res.built.Ok? && TryStep(s, id, res, f, now).0.tasks == s.tasks + [res.built.value])
    ensures TryStep(s, id, res, f, now).1 == Ok(Sent) ==>
              res.Found? && res.built.Ok? &&
              TryStep(s, id, res, f, now).0 ==
              Store(OW.MarkedSent(s.outbox, id, now), IW.MarkEnqueued(s.inbox, res.commandId, now).1,
                    s.tasks + [res.built.value])
  {
    if res.Found? {
      DeliverShape(s, id, res.commandId, res.built, f, now);
    }
  }

  // ---------------------------------------------------------------------
  // The `catch` block

  /** The `catch` block after a granted claim, whatever the `try` block did
      before it raised: a transient error puts the row back exactly as it
      was before the claim and reports skipped; a permanent one marks it
      FAILED; when that update raises, the row stays PROCESSING. The inbox
      and the queue keep what the `try` block left. */
  lemma Caught(s: Store, id: string, later: Store, m: string, f: Faults)
    requires Claimable(s, id) && later.outbox == Claimed(s, id).outbox
    ensures Settle((later, Err(m)), id, f).0.tasks == later.tasks
    ensures Settle((later, Err(m)), id, f).0.inbox == later.inbox
    ensures Settle((later, Err(m)), id, f).1 != Ok(Sent)
    ensures IsTransient(m) && f.reset.None? ==>
              Settle((later, Err(m)), id, f) == (later.(outbox := s.outbox), Ok(Skipped))
    ensures !IsTransient(m) && f.markFailed.None? ==>
              Settle((later, Err(m)), id, f) == (later.(outbox := WithStatus(s, id, Schema.Failed)), Ok(Failed))
    ensures Settle((later, Err(m)), id, f).1.Err? <==> (if IsTransient(m) then f.reset.Some? else f.markFailed.Some?)
    ensures Settle((later, Err(m)), id, f).1.Err? ==> Settle((later, Err(m)), id, f).0 == later
  {
    if IsTransient(m) && f.reset.None? {
      assert ResetToPending(later.outbox, id) == s.outbox;
    }
    if !IsTransient(m) && f.markFailed.None? {
      assert OW.MarkedFailed(later.outbox, id) == WithStatus(s, id, Schema.Failed);
    }
  }

  /** After a granted claim, `processEvent` is the `try` block run on the
      claimed store, settled by the `catch` block. */
  lemma AfterClaim(s: Store, id: string, res: Resolution, f: Faults, now: int)
    requires f.claim.None? && Claimable(s, id)
    ensures EventStep(s, id, res, f, now) == Settle(TryStep(Claimed(s, id), id, res, f, now), id, f)
  {
  }

  // ---------------------------------------------------------------------
  // One event: each outcome and what it leaves behind

  /** An event reported as sent was claimed and its task built and submitted
      exactly once; the command is ENQUEUED and the row SENT, and no store
      or queue call raised on the way. */
  lemma SentOutcome(s: Store, id: string, res: Resolution, f: Faults, now: int)
    requires EventStep(s, id, res, f, now).1 == Ok(Sent)
    ensures f.claim.None? && f.dispatch.None? && f.enqueue.None? && f.markSent.None?
    ensures Claimable(s, id) && res.Found? && res.built.Ok?
    ensures EventStep(s, id, res, f, now).0 == DeliveredStore(s, id, res.commandId, res.built.value, now)
  {
    assert f.claim.None? && Claimable(s, id);
    var s1 := Claimed(s, id);
    var t := TryStep(s1, id, res, f, now);
    TryOutcomes(s1, id, res, f, now);
    if t.1.Err? {
      Caught(s, id, t.0, t.1.error, f);
      assert false;
    }
    TryEffects(s1, id, res, f, now);
    assert OW.MarkedSent(s1.outbox, id, now) == DeliveredStore(s, id, res.commandId, res.built.value, now).outbox;
  }

  /** Conversely, with no store or queue call raising, a claimable event
      whose command is found and whose task is built is delivered. */
  lemma Delivered(s: Store, id: string, commandId: string, task: Task, f: Faults, now: int)
    requires f.claim.None? && f.dispatch.None? && f.enqueue.None? && f.markSent.None?
    requires Claimable(s, id)
    ensures EventStep(s, id, Found(commandId, Ok(task)), f, now) == (DeliveredStore(s, id, commandId, task, now), Ok(Sent))
  {
    var s1 := Claimed(s, id);
    DeliverShape(s1, id, commandId, Ok(task), f, now);
    assert OW.MarkedSent(s1.outbox, id, now) == DeliveredStore(s, id, commandId, task, now).outbox;
  }

  /** A missing command or an unsupported event type marks the row FAILED
      without dispatching anything or touching the inbox. */
  lemma RejectedMarksFailed(s: Store, id: string, res: Resolution, f: Faults, now: int)
    requires f.claim.None? && Claimable(s, id) && (res == Missing || res == Unsupported)
    ensures EventStep(s, id, res, f, now).0.tasks == s.tasks
    ensures EventStep(s, id, res, f, now).0.inbox == s.inbox
    ensures EventStep(s, id, res, f, now).1 != Ok(Sent)
    ensures f.markFailed.None? ==>
              EventStep(s, id, res, f, now) == (s.(outbox := WithStatus(s, id, Schema.Failed)), Ok(Failed))
  {
    var s1 := Claimed(s, id);
    if f.markFailed.None? {
      assert OW.MarkedFailed(s1.outbox, id) == WithStatus(s, id, Schema.Failed);
    } else {
      Caught(s, id, s1, f.markFailed.value, f);
    }
  }

  /** When publishing raises (the task cannot be built, or the queue refuses
      it), nothing was dispatched or acknowledged: a transient error puts the
      store back exactly as it was and reports skipped, a permanent one marks
      the row FAILED. */
  lemma PublishFailureSettled(s: Store, id: string, commandId: string, built: Result<Task>, f: Faults, now: int)
    requires f.claim.None? && Claimable(s, id) && (built.Err? || f.dispatch.Some?)
    ensures EventStep(s, id, Found(commandId, built), f, now).0.tasks == s.tasks
    ensures EventStep(s, id, Found(commandId, built), f, now).0.inbox == s.inbox
    ensures EventStep(s, id, Found(commandId, built), f, now).1 != Ok(Sent)
    ensures IsTransient(PublishError(built, f)) && f.reset.None? ==>
              EventStep(s, id, Found(commandId, built), f, now) == (s, Ok(Skipped))
    ensures !IsTransient(PublishError(built, f)) && f.markFailed.None? ==>
              EventStep(s, id, Found(commandId, built), f, now) == (s.(outbox := WithStatus(s, id, Schema.Failed)), Ok(Failed))
  {
    var s1 := Claimed(s, id);
    DeliverShape(s1, id, commandId, built, f, now);
    Caught(s, id, s1, PublishError(built, f), f);
  }

  /** Delivery is at least once, not exactly once: when acknowledging
      raises a transient error after the task was dispatched, the row goes
      back to PENDING with the task already in the queue. */
  lemma AcknowledgeFailureRequeues(s: Store, id: string, commandId: string, task: Task, f: Faults, now: int)
    requires f.claim.None? && f.dispatch.None? && f.reset.None? && Claimable(s, id)
    requires (f.enqueue.Some? && IsTransient(f.enqueue.value)) ||
             (f.enqueue.None? && f.markSent.Some? && IsTransient(f.markSent.value))
    ensures EventStep(s, id, Found(commandId, Ok(task)), f, now).1 == Ok(Skipped)
    ensures EventStep(s, id, Found(commandId, Ok(task)), f, now).0.outbox == s.outbox
    ensures EventStep(s, id, Found(commandId, Ok(task)), f, now).0.tasks == s.tasks + [task]
  {
    var s1 := Claimed(s, id);
    DeliverShape(s1, id, commandId, Ok(task), f, now);
    var t := DeliverStep(s1, id, commandId, Ok(task), f, now);
    Caught(s, id, t.0, t.1.error, f);
  }

  /** So the next run, when nothing raises, claims the row again and
      dispatches a second task for it, whatever that rebuilt task is; the
      inbox record was left as it was or already marked ENQUEUED. */
  lemma DuplicateDelivery(s: Store, id: string, commandId: string, task: Task, task': Task,
                          f: Faults, now: int, later: int)
    requires f.claim.None? && f.dispatch.None? && f.reset.None? && Claimable(s, id)
    requires (f.enqueue.Some? && IsTransient(f.enqueue.value)) ||
             (f.enqueue.None? && f.markSent.Some? && IsTransient(f.markSent.value))
    ensures EventStep(s, id, Found(commandId, Ok(task)), f, now).0.inbox == s.inbox ||
            EventStep(s, id, Found(commandId, Ok(task)), f, now).0.inbox == IW.MarkEnqueued(s.inbox, commandId, now).1
    ensures EventStep(EventStep(s, id, Found(commandId, Ok(task)), f, now).0, id, Found(commandId, Ok(task')), NoFaults, later).1
            == Ok(Sent)
    ensures EventStep(EventStep(s, id, Found(commandId, Ok(task)), f, now).0, id, Found(commandId, Ok(task')), NoFaults, later).0.tasks
            == s.tasks + [task, task']
  {
    AcknowledgeFailureRequeues(s, id, commandId, task, f, now);
    var s1 := Claimed(s, id);
    DeliverShape(s1, id, commandId, Ok(task), f, now);
    var t := DeliverStep(s1, id, commandId, Ok(task), f, now);
    Caught(s, id, t.0, t.1.error, f);
    var s2 := EventStep(s, id, Found(commandId, Ok(task)), f, now).0;
    Delivered(s2, id, commandId, task', NoFaults, later);
    assert s2.tasks + [task'] == s.tasks + [task, task'];
  }

  /** The next run resolves the event as the first did: the command is
      found again (its status may have become ENQUEUED meanwhile) and its
      task is rebuilt from the same record. */
  lemma ResolvedAgain(inbox: Schema.InboxRows, later: Schema.InboxRows, e: OutboxEvent, f: Faults, env: Env,
                      f': Faults, env': Env, now: int)
    requires Resolve(inbox, e, f, env).Found?
    requires later == inbox || later == IW.MarkEnqueued(inbox, e.aggregateId, now).1
    requires f'.lookup.None? && env'.decode == env.decode
    ensures Resolve(later, e, f', env').Found?
    ensures Resolve(later, e, f', env').commandId == Resolve(inbox, e, f, env).commandId
    ensures Resolve(later, e, f', env').built ==
              BuildTask(e, IR.FindByCommandId(later, e.aggregateId).value.value, env.decode, env'.nowIso)
    ensures IR.FindByCommandId(later, e.aggregateId).value.value ==
              IR.FindByCommandId(inbox, e.aggregateId).value.value.(
                status := later[e.aggregateId].status, updatedAt := later[e.aggregateId].updatedAt)
  {
  }

  /** The whole at-least-once scenario on concrete events: an event whose
      task is built is dispatched, acknowledging it raises a transient error,
      and the next clean run dispatches a second task for the same command.
      That task equals the first except possibly in its job, and is the very
      same task unless a defaulted `reportedAt` took the new clock reading. */
  lemma RedeliveredEvent(s: Store, e: OutboxEvent, f: Faults, env: Env, env': Env)
    requires f.claim.None? && f.dispatch.None? && f.reset.None? && Claimable(s, e.id.text)
    requires (f.enqueue.Some? && IsTransient(f.enqueue.value)) ||
             (f.enqueue.None? && f.markSent.Some? && IsTransient(f.markSent.value))
    requires Resolve(s.inbox, e, f, env).Found? && Resolve(s.inbox, e, f, env).built.Ok?
    requires env'.decode == env.decode
    ensures ProcessEventSpec(ProcessEventSpec(s, e, f, env).0, e, NoFaults, env').1 == Ok(Sent)
    ensures var t := Resolve(s.inbox, e, f, env).built.value;
            var tasks := ProcessEventSpec(ProcessEventSpec(s, e, f, env).0, e, NoFaults, env').0.tasks;
            |tasks| == |s.tasks| + 2 && tasks == s.tasks + [t, tasks[|s.tasks| + 1]] &&
            tasks[|s.tasks| + 1].(job := t.job) == t
    ensures var t := Resolve(s.inbox, e, f, env).built.value;
            e.eventType != "OccurrenceCreateRequested" || "reportedAt" in t.payload ==>
              ProcessEventSpec(ProcessEventSpec(s, e, f, env).0, e, NoFaults, env').0.tasks == s.tasks + [t, t]
  {
    var id := e.id.text;
    var res := Resolve(s.inbox, e, f, env);
    var t := res.built.value;
    DuplicateDelivery(s, id, res.commandId, t, t, f, env.now, env'.now);
    var s1 := EventStep(s, id, res, f, env.now).0;
    ResolvedAgain(s.inbox, s1.inbox, e, f, env, NoFaults, env', env.now);
    var c := IR.FindByCommandId(s.inbox, e.aggregateId).value.value;
    var c' := IR.FindByCommandId(s1.inbox, e.aggregateId).value.value;
    RebuiltTask(e, c, c', env.decode, env.nowIso, env'.nowIso);
    var res' := Resolve(s1.inbox, e, NoFaults, env');
    DuplicateDelivery(s, id, res.commandId, t, res'.built.value, f, env.now, env'.now);
  }

  /** A row reported as sent is never delivered again: any later event for
      it is skipped and changes nothing. */
  lemma SentIsFinal(s: Store, id: string, res: Resolution, f: Faults, now: int,
                    res2: Resolution, f2: Faults, now2: int)
    requires EventStep(s, id, res, f, now).1 == Ok(Sent)
    ensures EventStep(EventStep(s, id, res, f, now).0, id, res2, f2, now2).0 == EventStep(s, id, res, f, now).0
  {
    SentOutcome(s, id, res, f, now);
    ClaimNotGranted(EventStep(s, id, res, f, now).0, id, res2, f2, now2);
  }

  /** Skipped leaves the outbox as it was: the claim was not granted, or a
      transient error put the row back. */
  lemma SkippedOutcome(s: Store, id: string, res: Resolution, f: Faults, now: int)
    requires EventStep(s, id, res, f, now).1 == Ok(Skipped)
    ensures EventStep(s, id, res, f, now).0.outbox == s.outbox
  {
    if f.claim.None? && Claimable(s, id) {
      var s1 := Claimed(s, id);
      var t := TryStep(s1, id, res, f, now);
      TryOutcomes(s1, id, res, f, now);
      Caught(s, id, t.0, t.1.error, f);
    }
  }

  /** Failed means the row was claimed and is now FAILED; no other row
      changed. */
  lemma FailedOutcome(s: Store, id: string, res: Resolution, f: Faults, now: int)
    requires EventStep(s, id, res, f, now).1 == Ok(Failed)
    ensures Claimable(s, id)
    ensures EventStep(s, id, res, f, now).0.outbox == WithStatus(s, id, Schema.Failed)
  {
    assert f.claim.None? && Claimable(s, id);
    var s1 := Claimed(s, id);
    var t := TryStep(s1, id, res, f, now);
    TryOutcomes(s1, id, res, f, now);
    if t.1.Err? {
      Caught(s, id, t.0, t.1.error, f);
    } else {
      assert OW.MarkedFailed(s1.outbox, id) == WithStatus(s, id, Schema.Failed);
    }
  }

  /** An error that leaves `processEvent` either came from the claim, and
      nothing changed, or came after it, and the row is stuck in PROCESSING:
      no later run claims it again. */
  lemma ErrorOutcome(s: Store, id: string, res: Resolution, f: Faults, now: int)
    requires EventStep(s, id, res, f, now).1.Err?
    ensures f.claim.Some? ==> EventStep(s, id, res, f, now).0 == s
    ensures f.claim.None? ==> Claimable(s, id) && EventStep(s, id, res, f, now).0.outbox == Claimed(s, id).outbox
  {
    if f.claim.None? {
      assert Claimable(s, id);
      var s1 := Claimed(s, id);
      var t := TryStep(s1, id, res, f, now);
      TryOutcomes(s1, id, res, f, now);
      if t.1.Err? {
        Caught(s, id, t.0, t.1.error, f);
      }
    }
  }

  /** One event writes only its own outbox row, at most the ENQUEUED mark of
      its command, and at most the one task built for it; reporting sent
      means that task was appended. */
  lemma StepEffects(s: Store, id: string, res: Resolution, f: Faults, now: int)
    ensures EventStep(s, id, res, f, now).0.outbox.Keys == s.outbox.Keys
    ensures forall k :: k in s.outbox && k != id ==> EventStep(s, id, res, f, now).0.outbox[k] == s.outbox[k]
    ensures EventStep(s, id, res, f, now).0.inbox == s.inbox ||
            (res.Found? && EventStep(s, id, res, f, now).0.inbox == IW.MarkEnqueued(s.inbox, res.commandId, now).1)
    ensures EventStep(s, id, res, f, now).0.tasks == s.tasks ||
            (res.Found? && res.built.Ok? && EventStep(s, id, res, f, now).0.tasks == s.tasks + [res.built.value])
    ensures EventStep(s, id, res, f, now).1 == Ok(Sent) ==> |EventStep(s, id, res, f, now).0.tasks| == |s.tasks| + 1
  {
    if f.claim.None? && Claimable(s, id) {
      var s1 := Claimed(s, id);
      var t := TryStep(s1, id, res, f, now);
      TryOutcomes(s1, id, res, f, now);
      TryEffects(s1, id, res, f, now);
      if t.1.Err? {
        Caught(s, id, t.0, t.1.error, f);
      }
    }
  }

  // ---------------------------------------------------------------------
  // Concrete events

  /** A record that references a missing command is marked FAILED: nothing
      is dispatched and the inbox is untouched. This check comes before the
      event-type check, so it holds whatever the event type. */
  lemma NotFoundMarksFailed(s: Store, e: OutboxEvent, f: Faults, env: Env)
    requires f.claim.None? && f.lookup.None? && Claimable(s, e.id.text)
    requires e.aggregateId !in s.inbox
    ensures ProcessEventSpec(s, e, f, env).0.tasks == s.tasks
    ensures ProcessEventSpec(s, e, f, env).0.inbox == s.inbox
    ensures ProcessEventSpec(s, e, f, env).1 != Ok(Sent)
    ensures f.markFailed.None? ==>
              ProcessEventSpec(s, e, f, env) == (s.(outbox := WithStatus(s, e.id.text, Schema.Failed)), Ok(Failed))
  {
    RejectedMarksFailed(s, e.id.text, Resolve(s.inbox, e, f, env), f, env.now);
  }

  /** A found command whose event type the mapper does not know is marked
      FAILED: nothing is dispatched and the inbox is untouched. */
  lemma UnsupportedMarksFailed(s: Store, e: OutboxEvent, f: Faults, env: Env)
    requires f.claim.None? && f.lookup.None? && Claimable(s, e.id.text)
    requires e.aggregateId in s.inbox && WellFormed(e.aggregateId) && !OutboxEventMapper.IsSupported(e.eventType)
    ensures ProcessEventSpec(s, e, f, env).0.tasks == s.tasks
    ensures ProcessEventSpec(s, e, f, env).0.inbox == s.inbox
    ensures ProcessEventSpec(s, e, f, env).1 != Ok(Sent)
    ensures f.markFailed.None? ==>
              ProcessEventSpec(s, e, f, env) == (s.(outbox := WithStatus(s, e.id.text, Schema.Failed)), Ok(Failed))
  {
    RejectedMarksFailed(s, e.id.text, Resolve(s.inbox, e, f, env), f, env.now);
  }

  /** A cancellation request is never dispatched and never reported as sent;
      when its row is claimed and the lookup and the FAILED update succeed,
      the routing error is classified as permanent and the row is FAILED. */
  lemma CancellationNeverDispatched(s: Store, e: OutboxEvent, f: Faults, env: Env)
    requires e.eventType == "OccurrenceCancelledRequested"
    ensures ProcessEventSpec(s, e, f, env).0.tasks == s.tasks
    ensures ProcessEventSpec(s, e, f, env).1 != Ok(Sent)
    ensures f.claim.None? && f.lookup.None? && f.markFailed.None? && Claimable(s, e.id.text)
            && (e.aggregateId !in s.inbox || WellFormed(e.aggregateId)) ==>
              ProcessEventSpec(s, e, f, env) == (s.(outbox := WithStatus(s, e.id.text, Schema.Failed)), Ok(Failed))
  {
    var res := Resolve(s.inbox, e, f, env);
    if res.Found? {
      CancellationUnrouted(e, IR.FindByCommandId(s.inbox, e.aggregateId).value.value, env.decode, env.nowIso);
      assert res.built == Err(UnsupportedCommandType("cancel_occurrence"));
      CancellationErrorPermanent(res.built.error);
      if f.claim.None? && Claimable(s, e.id.text) {
        PublishFailureSettled(s, e.id.text, res.commandId, res.built, f, env.now);
      }
    }
    StepEffects(s, e.id.text, res, f, env.now);
    if ProcessEventSpec(s, e, f, env).1 == Ok(Sent) {
      SentOutcome(s, e.id.text, res, f, env.now);
    }
    if f.claim.None? && f.lookup.None? && f.markFailed.None? && Claimable(s, e.id.text) && e.aggregateId !in s.inbox {
      RejectedMarksFailed(s, e.id.text, res, f, env.now);
    }
  }

  /** With no store or queue call raising, an event is delivered exactly
      when its row is PENDING, its command is found, its type is supported
      and its task can be built; the store is then the delivered one. */
  lemma EventDelivered(s: Store, e: OutboxEvent, f: Faults, env: Env)
    requires f.claim.None? && f.lookup.None? && f.dispatch.None? && f.enqueue.None? && f.markSent.None?
    ensures ProcessEventSpec(s, e, f, env).1 == Ok(Sent) <==>
              Claimable(s, e.id.text) && e.aggregateId in s.inbox && WellFormed(e.aggregateId)
              && OutboxEventMapper.IsSupported(e.eventType)
              && BuildTask(e, IR.FindByCommandId(s.inbox, e.aggregateId).value.value, env.decode, env.nowIso).Ok?
    ensures ProcessEventSpec(s, e, f, env).1 == Ok(Sent) ==>
              ProcessEventSpec(s, e, f, env).0 ==
              DeliveredStore(s, e.id.text, e.aggregateId,
                             BuildTask(e, IR.FindByCommandId(s.inbox, e.aggregateId).value.value, env.decode, env.nowIso).value,
                             env.now)
  {
    var res := Resolve(s.inbox, e, f, env);
    if ProcessEventSpec(s, e, f, env).1 == Ok(Sent) {
      SentOutcome(s, e.id.text, res, f, env.now);
    } else if Claimable(s, e.id.text) && res.Found? && res.built.Ok? {
      Delivered(s, e.id.text, res.commandId, res.built.value, f, env.now);
    }
  }

  // ---------------------------------------------------------------------
  // A batch

  /** The counters of a run: every event is counted as processed or as
      failed (an error is counted as failed only), sent and failed events
      are disjoint, and sent ones are processed. */
  lemma {:induction false} BatchCounts(s: Store, events: seq<OutboxEvent>, plan: nat -> Faults, clock: nat -> Env)
    ensures RunBatch(s, events, plan, clock).1.sent <= RunBatch(s, events, plan, clock).1.processed <= |events|
    ensures RunBatch(s, events, plan, clock).1.sent + RunBatch(s, events, plan, clock).1.failed <= |events|
    ensures RunBatch(s, events, plan, clock).1.processed + RunBatch(s, events, plan, clock).1.failed >= |events|
    decreases |events|
  {
    if |events| > 0 {
      BatchCounts(s, events[..|events| - 1], plan, clock);
    }
  }

  /** A run only appends to the queue, at most one task per event, and every
      event counted as sent contributed one. */
  lemma {:induction false} BatchTasks(s: Store, events: seq<OutboxEvent>, plan: nat -> Faults, clock: nat -> Env)
    ensures s.tasks <= RunBatch(s, events, plan, clock).0.tasks
    ensures RunBatch(s, events, plan, clock).1.sent <= |RunBatch(s, events, plan, clock).0.tasks| - |s.tasks| <= |events|
    decreases |events|
  {
    if |events| > 0 {
      var n := |events| - 1;
      BatchTasks(s, events[..n], plan, clock);
      var (s1, c1) := RunBatch(s, events[..n], plan, clock);
      TasksStep(s.tasks, s1, c1, n, events[n].id.text, Resolve(s1.inbox, events[n], plan(n), clock(n)), plan(n), clock(n).now);
    }
  }

  /** One more event keeps the queue bounds of `BatchTasks`. */
  lemma TasksStep(start: seq<Task>, s: Store, c: Counters, n: nat, id: string, res: Resolution, f: Faults, now: int)
    requires start <= s.tasks && c.sent <= |s.tasks| - |start| <= n
    ensures start <= EventStep(s, id, res, f, now).0.tasks
    ensures Tally(c, EventStep(s, id, res, f, now).1).sent <= |EventStep(s, id, res, f, now).0.tasks| - |start| <= n + 1
  {
    StepEffects(s, id, res, f, now);
  }

  /** Between two outbox states: same keys, and every row that was not
      PENDING is as it was. */
  predicate SettledKept(before: map<string, Schema.OutboxRow>, after: map<string, Schema.OutboxRow>) {
    after.Keys == before.Keys &&
    forall k :: k in before && before[k].status != Schema.Pending ==> after[k] == before[k]
  }

  /** Between two outbox states: only the row `id` may differ, and only if
      it was PENDING. */
  predicate OnlyRowStep(before: map<string, Schema.OutboxRow>, after: map<string, Schema.OutboxRow>, id: string) {
    after.Keys == before.Keys &&
    (forall k :: k in before && k != id ==> after[k] == before[k]) &&
    (id in before && before[id].status != Schema.Pending ==> after[id] == before[id])
  }

  lemma SettledKeptStep(before: map<string, Schema.OutboxRow>, mid: map<string, Schema.OutboxRow>,
                        after: map<string, Schema.OutboxRow>, id: string)
    requires SettledKept(before, mid) && OnlyRowStep(mid, after, id)
    ensures SettledKept(before, after)
  {
  }

  /** One event moves the outbox by one row step. */
  lemma EventRowStep(s: Store, id: string, res: Resolution, f: Faults, now: int)
    ensures OnlyRowStep(s.outbox, EventStep(s, id, res, f, now).0.outbox, id)
  {
    StepEffects(s, id, res, f, now);
    if !Claimable(s, id) {
      ClaimNotGranted(s, id, res, f, now);
    }
  }

  /** A run keeps the outbox's keys and never touches a row that was not
      PENDING when it started: SENT and FAILED are final, and PROCESSING is
      stuck. */
  lemma {:induction false} BatchKeepsSettled(s: Store, events: seq<OutboxEvent>, plan: nat -> Faults, clock: nat -> Env)
    ensures SettledKept(s.outbox, RunBatch(s, events, plan, clock).0.outbox)
    decreases |events|
  {
    if |events| > 0 {
      var n := |events| - 1;
      BatchKeepsSettled(s, events[..n], plan, clock);
      var s1 := RunBatch(s, events[..n], plan, clock).0;
      var id := events[n].id.text;
      EventRowStep(s1, id, Resolve(s1.inbox, events[n], plan(n), clock(n)), plan(n), clock(n).now);
      SettledKeptStep(s.outbox, s1.outbox, RunBatch(s, events, plan, clock).0.outbox, id);
    }
  }

  /** The ids of the events of a run. */
  function EventIds(events: seq<OutboxEvent>): set<string> {
    set i | 0 <= i < |events| :: events[i].id.text
  }

  /** A run touches no row that none of its events names. */
  lemma {:induction false} BatchTouchesOnlyItsRows(s: Store, events: seq<OutboxEvent>, plan: nat -> Faults, clock: nat -> Env)
    ensures RunBatch(s, events, plan, clock).0.outbox.Keys == s.outbox.Keys
    ensures forall k :: k in s.outbox && k !in EventIds(events) ==> RunBatch(s, events, plan, clock).0.outbox[k] == s.outbox[k]
    decreases |events|
  {
    if |events| > 0 {
      var n := |events| - 1;
      BatchTouchesOnlyItsRows(s, events[..n], plan, clock);
      var s1 := RunBatch(s, events[..n], plan, clock).0;
      EventRowStep(s1, events[n].id.text, Resolve(s1.inbox, events[n], plan(n), clock(n)), plan(n), clock(n).now);
      EventIdsLast(events);
    }
  }

  lemma EventIdsLast(events: seq<OutboxEvent>)
    requires |events| > 0
    ensures EventIds(events) == EventIds(events[..|events| - 1]) + {events[|events| - 1].id.text}
  {
    var n := |events| - 1;
    forall k | k in EventIds(events) ensures k in EventIds(events[..n]) + {events[n].id.text} {
      var i :| 0 <= i < |events| && events[i].id.text == k;
      if i < n {
        assert events[..n][i].id.text == k;
      }
    }
    forall k | k in EventIds(events[..n]) ensures k in EventIds(events) {
      var i :| 0 <= i < n && events[..n][i].id.text == k;
      assert events[i].id.text == k;
    }
  }

  /** The clock readings of the first `n` events of a run. */
  function Stamps(clock: nat -> Env, n: nat): set<int> {
    set i: nat | i < n :: clock(i).now
  }

  lemma StampsGrow(clock: nat -> Env, n: nat)
    ensures Stamps(clock, n) <= Stamps(clock, n + 1)
    ensures clock(n).now in Stamps(clock, n + 1)
  {
    forall t | t in Stamps(clock, n) ensures t in Stamps(clock, n + 1) {
      var i: nat :| i < n && clock(i).now == t;
      assert i < n + 1;
    }
  }

  /** Between two inbox states: same keys, and every row either is as it
      was or went from RECEIVED to ENQUEUED, with `updated_at` restamped by
      one of the given clock readings. */
  predicate EnqueuedOnly(before: Schema.InboxRows, after: Schema.InboxRows, stamps: set<int>) {
    after.Keys == before.Keys &&
    forall k :: k in before ==>
      after[k] == before[k] ||
      (before[k].status == Schema.Received && after[k].updatedAt in stamps &&
       after[k] == before[k].(status := Schema.Enqueued, updatedAt := after[k].updatedAt))
  }

  lemma EnqueuedOnlyStep(before: Schema.InboxRows, mid: Schema.InboxRows, after: Schema.InboxRows, commandId: string,
                         now: int, stamps: set<int>, stamps': set<int>)
    requires EnqueuedOnly(before, mid, stamps)
    requires stamps <= stamps' && now in stamps'
    requires after == mid || after == IW.MarkEnqueued(mid, commandId, now).1
    ensures EnqueuedOnly(before, after, stamps')
  {
  }

  /** A run only moves commands from RECEIVED to ENQUEUED, restamping
      `updated_at` with the clock reading of one of its events; every other
      inbox row and column stays as it was. */
  lemma {:induction false} BatchInbox(s: Store, events: seq<OutboxEvent>, plan: nat -> Faults, clock: nat -> Env)
    ensures EnqueuedOnly(s.inbox, RunBatch(s, events, plan, clock).0.inbox, Stamps(clock, |events|))
    decreases |events|
  {
    if |events| > 0 {
      var n := |events| - 1;
      BatchInbox(s, events[..n], plan, clock);
      var s1 := RunBatch(s, events[..n], plan, clock).0;
      var res := Resolve(s1.inbox, events[n], plan(n), clock(n));
      StepEffects(s1, events[n].id.text, res, plan(n), clock(n).now);
      StampsGrow(clock, n);
      EnqueuedOnlyStep(s.inbox, s1.inbox, RunBatch(s, events, plan, clock).0.inbox, if res.Found? then res.commandId else "",
                       clock(n).now, Stamps(clock, n), Stamps(clock, |events|));
    }
  }
}
