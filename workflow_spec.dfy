/**
 * The workflow engine of src/lib/email-workflows.ts as pure functions over
 * the three tables it writes: `email_workflows` (one instance per started
 * workflow), `email_schedules` (queued steps) and `email_logs` (one line per
 * delivery or failure). The clock is a number of hours passed in as `now`;
 * the mail transport is an outcome passed in per delivery. The imperative
 * engine in WorkflowEngine is proved to compute exactly these functions.
 */
module WorkflowSpec {
  import opened Wrappers
  import opened WorkflowCatalog

  // ---------------------------------------------------------------------------
  // Tables

  datatype InstanceStatus = Active | Completed | Cancelled

  /** A row of `email_workflows`. */
  datatype Instance = Instance(
    workflowId: string,
    userId: string,
    userEmail: string,
    status: InstanceStatus,
    currentStep: nat,
    metadata: Metadata,
    startedAt: int,
    lastEmailSentAt: Option<int>,
    completedAt: Option<int>)

  datatype ScheduleStatus = Pending | Sent | Cancelled

  /** A row of `email_schedules`: step `stepIndex` of instance `recordId` is due at `scheduledFor`. */
  datatype ScheduleRow = ScheduleRow(
    recordId: nat,
    stepIndex: nat,
    scheduledFor: int,
    status: ScheduleStatus,
    sentAt: Option<int>)

  /** Why a delivery failed; the source carries these as error messages. */
  datatype SendError =
    | RecordNotFound
    | WorkflowDefinitionNotFound
    | StepNotFound
    | TemplateNotFound(templateKey: string)
    | TransportError(message: string)

  /** A row of `email_logs`; every sent row names the provider `sendgrid`. */
  datatype LogEntry =
    | SentLog(userId: string, workflowId: string, recordId: nat, stepId: string, email: string,
              subject: string, messageId: string, sentAt: int)
    | FailedLog(userId: string, recordId: nat, email: string, error: SendError, sentAt: int)

  /** The three tables; instance ids are the keys of `instances`, schedule rows keep insertion order. */
  datatype Store = Store(instances: map<nat, Instance>, schedules: seq<ScheduleRow>, logs: seq<LogEntry>)

  /** What the mail transport answers for one message. */
  datatype TransportOutcome = Accepted(messageId: string) | Refused(error: string)

  /** The result of `sendWorkflowEmail`. */
  datatype SendResult = EmailSent(messageId: string) | StepSkipped | SendFailed(error: SendError)

  datatype StartError = NotFoundOrDisabled | NoFirstStep

  /** The result of `startWorkflow`. */
  datatype StartResult = Started(recordId: nat) | StartFailed(reason: StartError)

  /** Every schedule row belongs to an existing instance (the join `processScheduledEmails` reads). */
  predicate WellLinked(t: Store) {
    forall i :: 0 <= i < |t.schedules| ==> t.schedules[i].recordId in t.instances
  }

  function PendingRow(recordId: nat, stepIndex: nat, scheduledFor: int): ScheduleRow {
    ScheduleRow(recordId, stepIndex, scheduledFor, Pending, None)
  }

  // ---------------------------------------------------------------------------
  // Lookups

  /** The steps of the workflow an instance runs, or none when the instance or its definition is missing. */
  function StepsOf(catalog: seq<Workflow>, t: Store, recordId: nat): seq<Step> {
    if recordId !in t.instances then []
    else match FindWorkflow(catalog, t.instances[recordId].workflowId)
      case None => []
      case Some(w) => catalog[w].steps
  }

  predicate DefinitionFound(catalog: seq<Workflow>, t: Store, recordId: nat) {
    recordId in t.instances && FindWorkflow(catalog, t.instances[recordId].workflowId).Some?
  }

  /** The row queued after step `stepIndex`: one for the following step when there is one. */
  function NextRow(steps: seq<Step>, recordId: nat, stepIndex: int, now: int): seq<ScheduleRow> {
    if 0 <= stepIndex && stepIndex + 1 < |steps|
    then [PendingRow(recordId, stepIndex + 1, now + steps[stepIndex + 1].delayHours)]
    else []
  }

  // ---------------------------------------------------------------------------
  // scheduleWorkflowEmail, sendWorkflowEmail

  /** `scheduleWorkflowEmail`: queue a pending row `delayHours` from now. */
  function Enqueue(t: Store, recordId: nat, stepIndex: nat, delayHours: nat, now: int): (u: Store)
    ensures u.instances == t.instances && u.logs == t.logs
    ensures |u.schedules| == |t.schedules| + 1 && t.schedules <= u.schedules
    ensures u.schedules[|t.schedules|] == PendingRow(recordId, stepIndex, now + delayHours)
    ensures u.schedules[|t.schedules|].scheduledFor >= now
  {
    t.(schedules := t.schedules + [PendingRow(recordId, stepIndex, now + delayHours)])
  }

  /** The catch block: one failed log line and nothing else. */
  function Fail(t: Store, recordId: nat, userEmail: string, userId: string, error: SendError, now: int): (out: (Store, SendResult))
    ensures out.1 == SendFailed(error)
    ensures out.0.instances == t.instances && out.0.schedules == t.schedules
    ensures |out.0.logs| == |t.logs| + 1 && t.logs <= out.0.logs
    ensures out.0.logs[|t.logs|] == FailedLog(userId, recordId, userEmail, error, now)
  {
    (t.(logs := t.logs + [FailedLog(userId, recordId, userEmail, error, now)]), SendFailed(error))
  }

  /**
   * `sendWorkflowEmail(recordId, stepIndex, …)`. The instance's status is
   * never consulted; a skipped step leaves the instance as it is and queues the
   * following step; a delivered step advances `currentStep` and either queues
   * the following step (even when its delay is 0) or completes the instance.
   */
  function SendStep(catalog: seq<Workflow>, t: Store, recordId: nat, stepIndex: int, userEmail: string, userId: string,
                    metadata: Metadata, now: int, transport: TransportOutcome): (out: (Store, SendResult))
    // Which outcome, and why.
    ensures out.1 == SendFailed(RecordNotFound) <==> recordId !in t.instances
    ensures out.1 == SendFailed(WorkflowDefinitionNotFound) <==> recordId in t.instances && !DefinitionFound(catalog, t, recordId)
    ensures out.1 == SendFailed(StepNotFound) <==>
      DefinitionFound(catalog, t, recordId) && !(0 <= stepIndex < |StepsOf(catalog, t, recordId)|)
    ensures out.1.StepSkipped? <==>
      var steps := StepsOf(catalog, t, recordId);
      0 <= stepIndex < |steps| && !ConditionHolds(steps[stepIndex], metadata, userId, userEmail)
    ensures (out.1.SendFailed? && out.1.error.TemplateNotFound?) <==>
      var steps := StepsOf(catalog, t, recordId);
      0 <= stepIndex < |steps| && ConditionHolds(steps[stepIndex], metadata, userId, userEmail) &&
      !HasEmailTemplate(steps[stepIndex].templateKey)
    ensures out.1.EmailSent? <==>
      var steps := StepsOf(catalog, t, recordId);
      0 <= stepIndex < |steps| && ConditionHolds(steps[stepIndex], metadata, userId, userEmail) &&
      HasEmailTemplate(steps[stepIndex].templateKey) && transport.Accepted?
    ensures out.1.EmailSent? ==> out.1.messageId == transport.messageId
    ensures out.1.SendFailed? && out.1.error.TransportError? ==> transport == Refused(out.1.error.message)
    // A failure writes one failed log line and nothing else.
    ensures out.1.SendFailed? ==> out.0 == t.(logs := t.logs + [FailedLog(userId, recordId, userEmail, out.1.error, now)])
    // A skip writes no log, leaves every instance alone and queues the following step, if any.
    ensures out.1.StepSkipped? ==>
      out.0 == t.(schedules := t.schedules + NextRow(StepsOf(catalog, t, recordId), recordId, stepIndex, now))
    // A delivery logs it, advances the instance past the step, and queues the following step or completes.
    ensures out.1.EmailSent? ==>
      var steps := StepsOf(catalog, t, recordId);
      var before := t.instances[recordId];
      var last := stepIndex + 1 == |steps|;
      && out.0.logs == t.logs + [SentLog(userId, before.workflowId, recordId, steps[stepIndex].id, userEmail,
                                         steps[stepIndex].subject, transport.messageId, now)]
      && out.0.schedules == t.schedules + NextRow(steps, recordId, stepIndex, now)
      && out.0.instances == t.instances[recordId := before.(
           currentStep := stepIndex + 1,
           lastEmailSentAt := Some(now),
           status := if last then Completed else before.status,
           completedAt := if last then Some(now) else before.completedAt)]
    // Tables only grow, and at most by one log line and one schedule row.
    ensures out.0.instances.Keys == t.instances.Keys
    ensures t.schedules <= out.0.schedules && |out.0.schedules| <= |t.schedules| + 1
    ensures t.logs <= out.0.logs && |out.0.logs| <= |t.logs| + 1
    ensures WellLinked(t) ==> WellLinked(out.0)
  {
    if recordId !in t.instances then Fail(t, recordId, userEmail, userId, RecordNotFound, now)
    else
      var record := t.instances[recordId];
      match FindWorkflow(catalog, record.workflowId)
      case None => Fail(t, recordId, userEmail, userId, WorkflowDefinitionNotFound, now)
      case Some(w) =>
        var steps := catalog[w].steps;
        if !(0 <= stepIndex < |steps|) then Fail(t, recordId, userEmail, userId, StepNotFound, now)
        else
          var step := steps[stepIndex];
          if !ConditionHolds(step, metadata, userId, userEmail) then
            (t.(schedules := t.schedules + NextRow(steps, recordId, stepIndex, now)), StepSkipped)
          else if !HasEmailTemplate(step.templateKey) then
            Fail(t, recordId, userEmail, userId, TemplateNotFound(step.templateKey), now)
          else match transport
            case Refused(message) => Fail(t, recordId, userEmail, userId, TransportError(message), now)
            case Accepted(messageId) =>
              var logged := t.logs + [SentLog(userId, record.workflowId, recordId, step.id, userEmail, step.subject, messageId, now)];
              var advanced := record.(currentStep := stepIndex + 1, lastEmailSentAt := Some(now));
              if stepIndex + 1 < |steps| then
                var queued := Enqueue(t, recordId, stepIndex + 1, steps[stepIndex + 1].delayHours, now);
                (queued.(instances := t.instances[recordId := advanced], logs := logged), EmailSent(messageId))
              else
                var done := advanced.(status := Completed, completedAt := Some(now));
                (t.(instances := t.instances[recordId := done], logs := logged), EmailSent(messageId))
  }

  /** Delivery never looks at the instance's status: a cancelled or completed instance is sent to all the same. */
  lemma SendIgnoresStatus(catalog: seq<Workflow>, t: Store, recordId: nat, stepIndex: int, userEmail: string, userId: string,
                          metadata: Metadata, now: int, transport: TransportOutcome, status: InstanceStatus)
    requires recordId in t.instances
    ensures
      var t' := t.(instances := t.instances[recordId := t.instances[recordId].(status := status)]);
      var out := SendStep(catalog, t, recordId, stepIndex, userEmail, userId, metadata, now, transport);
      var out' := SendStep(catalog, t', recordId, stepIndex, userEmail, userId, metadata, now, transport);
      out'.1 == out.1 && out'.0.schedules == out.0.schedules && out'.0.logs == out.0.logs &&
      out'.0.instances[recordId].currentStep == out.0.instances[recordId].currentStep
  {
    var t' := t.(instances := t.instances[recordId := t.instances[recordId].(status := status)]);
    assert StepsOf(catalog, t', recordId) == StepsOf(catalog, t, recordId);
  }

  /** Only a delivery moves an instance's `currentStep`; a skip or a failure leaves every instance as it was. */
  lemma OnlyDeliveryAdvances(catalog: seq<Workflow>, t: Store, recordId: nat, stepIndex: int, userEmail: string, userId: string,
                             metadata: Metadata, now: int, transport: TransportOutcome)
    ensures
      var out := SendStep(catalog, t, recordId, stepIndex, userEmail, userId, metadata, now, transport);
      (out.0.instances != t.instances ==> out.1.EmailSent?) &&
      (out.1.EmailSent? ==> out.0.instances[recordId].currentStep == stepIndex + 1)
  {
  }

  // ---------------------------------------------------------------------------
  // startWorkflow

  /** The row `startWorkflow` inserts. */
  function NewInstance(workflowId: string, userEmail: string, userId: string, metadata: Metadata, now: int): Instance {
    Instance(workflowId, userId, userEmail, Active, 0, metadata, now, None, None)
  }

  /** The catalog holds an enabled workflow with this id. */
  predicate EnabledWorkflow(catalog: seq<Workflow>, workflowId: string) {
    FindWorkflow(catalog, workflowId).Some? && catalog[FindWorkflow(catalog, workflowId).value].enabled
  }

  function WorkflowSteps(catalog: seq<Workflow>, workflowId: string): seq<Step> {
    match FindWorkflow(catalog, workflowId)
    case None => []
    case Some(w) => catalog[w].steps
  }

  /**
   * `startWorkflow`, with `newId` the id the database assigns. An unknown or
   * disabled workflow changes nothing. Otherwise the instance is recorded
   * first; step 0 is then delivered inline when its delay is 0 and queued
   * otherwise, and the start counts as a success whatever the inline delivery
   * did. A workflow without steps fails after the instance is recorded.
   */
  function StartSpec(catalog: seq<Workflow>, t: Store, newId: nat, workflowId: string, userEmail: string, userId: string,
                     metadata: Metadata, now: int, transport: TransportOutcome): (out: (Store, StartResult))
    requires newId !in t.instances
    ensures out.1 == StartFailed(NotFoundOrDisabled) <==> !EnabledWorkflow(catalog, workflowId)
    ensures out.1 == StartFailed(NotFoundOrDisabled) ==> out.0 == t
    ensures out.1.Started? <==> EnabledWorkflow(catalog, workflowId) && |WorkflowSteps(catalog, workflowId)| > 0
    ensures out.1.Started? ==> out.1.recordId == newId
    ensures EnabledWorkflow(catalog, workflowId) ==>
      && out.0.instances.Keys == t.instances.Keys + {newId}
      && (forall id :: id in t.instances ==> out.0.instances[id] == t.instances[id])
      && out.0.instances[newId].(status := Active, currentStep := 0, lastEmailSentAt := None, completedAt := None)
         == NewInstance(workflowId, userEmail, userId, metadata, now)
    ensures out.1 == StartFailed(NoFirstStep) ==>
      out.0 == t.(instances := t.instances[newId := NewInstance(workflowId, userEmail, userId, metadata, now)])
    ensures out.1.Started? && WorkflowSteps(catalog, workflowId)[0].delayHours > 0 ==>
      out.0 == t.(instances := t.instances[newId := NewInstance(workflowId, userEmail, userId, metadata, now)],
                  schedules := t.schedules + [PendingRow(newId, 0, now + WorkflowSteps(catalog, workflowId)[0].delayHours)])
    ensures out.1.Started? && WorkflowSteps(catalog, workflowId)[0].delayHours == 0 ==>
      out.0 == SendStep(catalog, t.(instances := t.instances[newId := NewInstance(workflowId, userEmail, userId, metadata, now)]),
                        newId, 0, userEmail, userId, metadata, now, transport).0
    ensures WellLinked(t) ==> WellLinked(out.0)
  {
    match FindWorkflow(catalog, workflowId)
    case None => (t, StartFailed(NotFoundOrDisabled))
    case Some(w) =>
      if !catalog[w].enabled then (t, StartFailed(NotFoundOrDisabled))
      else
        var created := t.(instances := t.instances[newId := NewInstance(workflowId, userEmail, userId, metadata, now)]);
        var steps := catalog[w].steps;
        if |steps| == 0 then (created, StartFailed(NoFirstStep))
        else if steps[0].delayHours == 0 then
          (SendStep(catalog, created, newId, 0, userEmail, userId, metadata, now, transport).0, Started(newId))
        else (Enqueue(created, newId, 0, steps[0].delayHours, now), Started(newId))
  }

  // ---------------------------------------------------------------------------
  // stopWorkflow

  /** The bulk update that cancels an instance's pending rows. */
  function CancelPending(rows: seq<ScheduleRow>, recordId: nat): (r: seq<ScheduleRow>)
    ensures |r| == |rows|
    ensures forall i :: 0 <= i < |rows| && (rows[i].recordId != recordId || rows[i].status != Pending) ==> r[i] == rows[i]
    ensures forall i :: 0 <= i < |rows| && rows[i].recordId == recordId && rows[i].status == Pending ==>
      r[i] == rows[i].(status := ScheduleStatus.Cancelled)
    ensures forall i :: 0 <= i < |r| && r[i].recordId == recordId ==> r[i].status != Pending
  {
    if rows == [] then []
    else
      var head := if rows[0].recordId == recordId && rows[0].status == Pending
        then rows[0].(status := ScheduleStatus.Cancelled) else rows[0];
      [head] + CancelPending(rows[1..], recordId)
  }

  /**
   * `stopWorkflow`: whatever its status, the instance becomes cancelled (a
   * missing id changes no instance), and its pending rows, and only those,
   * are cancelled.
   */
  function Stop(t: Store, recordId: nat, now: int): (u: Store)
    ensures u.logs == t.logs
    ensures u.instances.Keys == t.instances.Keys
    ensures forall id :: id in t.instances && id != recordId ==> u.instances[id] == t.instances[id]
    ensures recordId in t.instances ==>
      u.instances[recordId] == t.instances[recordId].(status := InstanceStatus.Cancelled, completedAt := Some(now))
    ensures u.schedules == CancelPending(t.schedules, recordId)
    ensures WellLinked(t) ==> WellLinked(u)
  {
    var instances :=
      if recordId in t.instances
      then t.instances[recordId := t.instances[recordId].(status := InstanceStatus.Cancelled, completedAt := Some(now))]
      else t.instances;
    Store(instances, CancelPending(t.schedules, recordId), t.logs)
  }

  /** Cancelling twice cancels nothing more. */
  lemma {:induction false} CancelPendingIdempotent(rows: seq<ScheduleRow>, recordId: nat)
    ensures CancelPending(CancelPending(rows, recordId), recordId) == CancelPending(rows, recordId)
  {
    if rows != [] {
      CancelPendingIdempotent(rows[1..], recordId);
      assert CancelPending(rows, recordId)[1..] == CancelPending(rows[1..], recordId);
    }
  }

  /** Stopping an instance twice is stopping it once, at the time of the second call. */
  lemma StopIdempotent(t: Store, recordId: nat, first: int, second: int)
    ensures Stop(Stop(t, recordId, first), recordId, second) == Stop(t, recordId, second)
  {
    CancelPendingIdempotent(t.schedules, recordId);
  }

  // ---------------------------------------------------------------------------
  // processScheduledEmails

  /** The most rows one run takes from the queue. */
  const BatchLimit: nat := 100

  predicate IsDue(row: ScheduleRow, now: int) {
    row.status == Pending && row.scheduledFor <= now
  }

  /** Positions, from `from` on, of the rows due at `now`, in table order. */
  function DueFrom(rows: seq<ScheduleRow>, now: int, from: nat): (r: seq<nat>)
    ensures forall k :: 0 <= k < |r| ==> from <= r[k] < |rows| && IsDue(rows[r[k]], now)
    ensures forall k, l :: 0 <= k < l < |r| ==> r[k] < r[l]
    ensures forall i :: from <= i < |rows| && IsDue(rows[i], now) ==> i in r
    decreases |rows| - from
  {
    if from >= |rows| then []
    else if IsDue(rows[from], now) then [from] + DueFrom(rows, now, from + 1)
    else DueFrom(rows, now, from + 1)
  }

  /**
   * The rows one run selects: pending rows due at `now`, at most
   * `BatchLimit` of them. The database returns them in an unspecified order;
   * the model takes the first ones in table order.
   */
  function DueBatch(rows: seq<ScheduleRow>, now: int): (r: seq<nat>)
    ensures |r| <= BatchLimit
    ensures forall k :: 0 <= k < |r| ==> r[k] < |rows| && IsDue(rows[r[k]], now)
    ensures forall k, l :: 0 <= k < l < |r| ==> r[k] < r[l]
    ensures |r| < BatchLimit ==> forall i :: 0 <= i < |rows| && IsDue(rows[i], now) ==> i in r
  {
    var due := DueFrom(rows, now, 0);
    if |due| <= BatchLimit then due else due[..BatchLimit]
  }

  predicate InRange(t: Store, batch: seq<nat>) {
    forall k :: 0 <= k < |batch| ==> batch[k] < |t.schedules|
  }

  function MarkSent(t: Store, index: nat, now: int): Store
    requires index < |t.schedules|
  {
    t.(schedules := t.schedules[index := t.schedules[index].(status := Sent, sentAt := Some(now))])
  }

  /**
   * The loop of `processScheduledEmails` over the selected rows: each row,
   * with its instance as the query returned it from `s`, is handed to
   * `sendWorkflowEmail` with the transport's answer for its position, and is
   * then marked sent whatever the delivery did.
   */
  function RunBatch(catalog: seq<Workflow>, s: Store, batch: seq<nat>, now: int, outcomes: nat -> TransportOutcome): (r: Store)
    requires WellLinked(s) && InRange(s, batch)
    ensures WellLinked(r)
    ensures r.instances.Keys == s.instances.Keys
    ensures |s.schedules| <= |r.schedules|
    ensures forall i :: |s.schedules| <= i < |r.schedules| ==> r.schedules[i].status == Pending
    ensures s.logs <= r.logs && |r.logs| <= |s.logs| + |batch|
    decreases |batch|
  {
    if batch == [] then s
    else
      var k := |batch| - 1;
      var before := RunBatch(catalog, s, batch[..k], now, outcomes);
      var row := s.schedules[batch[k]];
      var owner := s.instances[row.recordId];
      var after := SendStep(catalog, before, row.recordId, row.stepIndex, owner.userEmail, owner.userId, owner.metadata, now, outcomes(k)).0;
      MarkSent(after, batch[k], now)
  }

  /** One more row of the batch: send it against the tables so far, then mark it sent. */
  lemma RunBatchUnfold(catalog: seq<Workflow>, s: Store, batch: seq<nat>, i: nat, now: int, outcomes: nat -> TransportOutcome)
    requires WellLinked(s) && InRange(s, batch) && i < |batch|
    ensures
      var before := RunBatch(catalog, s, batch[..i], now, outcomes);
      var row := s.schedules[batch[i]];
      var owner := s.instances[row.recordId];
      var after := SendStep(catalog, before, row.recordId, row.stepIndex, owner.userEmail, owner.userId, owner.metadata, now, outcomes(i)).0;
      batch[i] < |after.schedules| &&
      RunBatch(catalog, s, batch[..i + 1], now, outcomes) == MarkSent(after, batch[i], now)
  {
    assert batch[..i + 1][..i] == batch[..i];
  }

  /** After the loop, a row of the old table is marked sent exactly when it was in the batch. */
  lemma {:induction false} BatchMarksExactlyItsRows(catalog: seq<Workflow>, s: Store, batch: seq<nat>, now: int,
                                                    outcomes: nat -> TransportOutcome, j: nat)
    requires WellLinked(s) && InRange(s, batch) && j < |s.schedules|
    ensures RunBatch(catalog, s, batch, now, outcomes).schedules[j] ==
      if j in batch then s.schedules[j].(status := Sent, sentAt := Some(now)) else s.schedules[j]
    decreases |batch|
  {
    if batch != [] {
      var k := |batch| - 1;
      BatchMarksExactlyItsRows(catalog, s, batch[..k], now, outcomes, j);
      assert j in batch <==> j in batch[..k] || j == batch[k] by {
        assert batch == batch[..k] + [batch[k]];
      }
    }
  }

  /** The effect of one `processScheduledEmails` run and the count it reports. */
  function Process(catalog: seq<Workflow>, s: Store, now: int, outcomes: nat -> TransportOutcome): (out: (Store, nat))
    requires WellLinked(s)
    ensures out.1 <= BatchLimit
    ensures WellLinked(out.0)
    ensures out.0.instances.Keys == s.instances.Keys
    ensures |s.schedules| <= |out.0.schedules|
    ensures s.logs <= out.0.logs && |out.0.logs| <= |s.logs| + out.1
  {
    var batch := DueBatch(s.schedules, now);
    (RunBatch(catalog, s, batch, now, outcomes), |batch|)
  }

  /**
   * One run handles at most `BatchLimit` rows, each of them pending and due;
   * every handled row ends up sent at `now` whatever its delivery did; every
   * other row of the old table is untouched; when fewer than `BatchLimit`
   * rows were taken, no due row was left behind.
   */
  lemma ProcessHandlesDueRows(catalog: seq<Workflow>, s: Store, now: int, outcomes: nat -> TransportOutcome)
    requires WellLinked(s)
    ensures
      var batch := DueBatch(s.schedules, now);
      var r := Process(catalog, s, now, outcomes).0;
      && Process(catalog, s, now, outcomes).1 == |batch| <= BatchLimit
      && (forall j :: 0 <= j < |s.schedules| && j in batch ==>
            IsDue(s.schedules[j], now) && r.schedules[j] == s.schedules[j].(status := Sent, sentAt := Some(now)))
      && (forall j :: 0 <= j < |s.schedules| && j !in batch ==> r.schedules[j] == s.schedules[j])
      && (|batch| < BatchLimit ==> forall j :: 0 <= j < |s.schedules| ==> r.schedules[j].status != Pending || !IsDue(s.schedules[j], now))
  {
    var batch := DueBatch(s.schedules, now);
    forall j | 0 <= j < |s.schedules|
      ensures RunBatch(catalog, s, batch, now, outcomes).schedules[j] ==
        if j in batch then s.schedules[j].(status := Sent, sentAt := Some(now)) else s.schedules[j]
    {
      BatchMarksExactlyItsRows(catalog, s, batch, now, outcomes, j);
    }
    forall j | 0 <= j < |s.schedules| && j in batch
      ensures IsDue(s.schedules[j], now)
    {
      var k :| 0 <= k < |batch| && batch[k] == j;
    }
  }
}
