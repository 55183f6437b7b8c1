/**
 * The workflow engine as an object that owns the three tables and updates
 * them in place, write by write, in the order src/lib/email-workflows.ts
 * issues its database calls. Each method is proved to leave exactly the
 * tables the matching WorkflowSpec function describes.
 */
module WorkflowEngine {
  import opened Wrappers
  import opened WorkflowCatalog
  import opened WorkflowSpec

  class Engine {
    /** The workflow definitions (`EMAIL_WORKFLOWS` in production). */
    const catalog: seq<Workflow>
    /** `email_workflows`, by record id. */
    var instances: map<nat, Instance>
    /** `email_schedules`, in insertion order. */
    var schedules: seq<ScheduleRow>
    /** `email_logs`, append-only. */
    var logs: seq<LogEntry>
    /** The id the database gives the next inserted instance. */
    var nextId: nat

    ghost predicate Valid()
      reads this
    {
      && WellLinked(State())
      && forall id :: id in instances ==> id < nextId
    }

    /** The tables as a value. */
    function State(): Store
      reads this
    {
      Store(instances, schedules, logs)
    }

    constructor (catalog: seq<Workflow>)
      ensures Valid()
      ensures this.catalog == catalog && State() == Store(map[], [], [])
    {
      this.catalog := catalog;
      instances := map[];
      schedules := [];
      logs := [];
      nextId := 0;
    }

    /** `scheduleWorkflowEmail`: insert a pending row due `delayHours` after `now`. */
    method ScheduleWorkflowEmail(recordId: nat, stepIndex: nat, delayHours: nat, now: int)
      requires Valid() && recordId in instances
      modifies this
      ensures Valid()
      ensures State() == Enqueue(old(State()), recordId, stepIndex, delayHours, now)
      ensures nextId == old(nextId)
    {
      schedules := schedules + [PendingRow(recordId, stepIndex, now + delayHours)];
    }

    /** The catch block of `sendWorkflowEmail`: log the failure and report it. */
    method LogFailure(recordId: nat, userEmail: string, userId: string, error: SendError, now: int) returns (result: SendResult)
      requires Valid()
      modifies this
      ensures Valid()
      ensures (State(), result) == Fail(old(State()), recordId, userEmail, userId, error, now)
      ensures nextId == old(nextId)
    {
      logs := logs + [FailedLog(userId, recordId, userEmail, error, now)];
      result := SendFailed(error);
    }

    /** `sendWorkflowEmail`, with `transport` the mail provider's answer. */
    method SendWorkflowEmail(recordId: nat, stepIndex: int, userEmail: string, userId: string, metadata: Metadata,
                             now: int, transport: TransportOutcome) returns (result: SendResult)
      requires Valid()
      modifies this
      ensures Valid()
      ensures (State(), result) == SendStep(catalog, old(State()), recordId, stepIndex, userEmail, userId, metadata, now, transport)
      ensures nextId == old(nextId)
    {
      if recordId !in instances {
        result := LogFailure(recordId, userEmail, userId, RecordNotFound, now);
        return;
      }
      var record := instances[recordId];
      var found := FindWorkflow(catalog, record.workflowId);
      if found.None? {
        result := LogFailure(recordId, userEmail, userId, WorkflowDefinitionNotFound, now);
        return;
      }
      var steps := catalog[found.value].steps;
      if !(0 <= stepIndex < |steps|) {
        result := LogFailure(recordId, userEmail, userId, StepNotFound, now);
        return;
      }
      var step := steps[stepIndex];
      if !ConditionHolds(step, metadata, userId, userEmail) {
        if stepIndex + 1 < |steps| {
          ScheduleWorkflowEmail(recordId, stepIndex + 1, steps[stepIndex + 1].delayHours, now);
        } else {
          assert schedules == old(schedules) + NextRow(steps, recordId, stepIndex, now);
        }
        result := StepSkipped;
        return;
      }
      if !HasEmailTemplate(step.templateKey) {
        result := LogFailure(recordId, userEmail, userId, TemplateNotFound(step.templateKey), now);
        return;
      }
      match transport {
        case Refused(message) =>
          result := LogFailure(recordId, userEmail, userId, TransportError(message), now);
        case Accepted(messageId) =>
          logs := logs + [SentLog(userId, record.workflowId, recordId, step.id, userEmail, step.subject, messageId, now)];
          instances := instances[recordId := record.(currentStep := stepIndex + 1, lastEmailSentAt := Some(now))];
          if stepIndex + 1 < |steps| {
            ScheduleWorkflowEmail(recordId, stepIndex + 1, steps[stepIndex + 1].delayHours, now);
            assert State() == SendStep(catalog, old(State()), recordId, stepIndex, userEmail, userId, metadata, now, transport).0;
          } else {
            instances := instances[recordId := instances[recordId].(status := Completed, completedAt := Some(now))];
            assert State() == SendStep(catalog, old(State()), recordId, stepIndex, userEmail, userId, metadata, now, transport).0;
          }
          result := EmailSent(messageId);
      }
    }

    /** `startWorkflow`, with `transport` the answer to the inline delivery of a step 0 without delay. */
    method StartWorkflow(workflowId: string, userEmail: string, userId: string, metadata: Metadata,
                         now: int, transport: TransportOutcome) returns (result: StartResult)
      requires Valid()
      modifies this
      ensures Valid()
      ensures (State(), result) == StartSpec(catalog, old(State()), old(nextId), workflowId, userEmail, userId, metadata, now, transport)
      ensures nextId == if EnabledWorkflow(catalog, workflowId) then old(nextId) + 1 else old(nextId)
    {
      var found := FindWorkflow(catalog, workflowId);
      if found.None? || !catalog[found.value].enabled {
        result := StartFailed(NotFoundOrDisabled);
        return;
      }
      var id := nextId;
      instances := instances[id := NewInstance(workflowId, userEmail, userId, metadata, now)];
      nextId := nextId + 1;
      var steps := catalog[found.value].steps;
      if |steps| == 0 {
        result := StartFailed(NoFirstStep);
        return;
      }
      if steps[0].delayHours == 0 {
        var sent := SendWorkflowEmail(id, 0, userEmail, userId, metadata, now, transport);
      } else {
        ScheduleWorkflowEmail(id, 0, steps[0].delayHours, now);
      }
      result := Started(id);
    }

    /** `stopWorkflow`: cancel the instance, then its pending rows. */
    method StopWorkflow(recordId: nat, now: int)
      requires Valid()
      modifies this
      ensures Valid()
      ensures State() == Stop(old(State()), recordId, now)
      ensures nextId == old(nextId)
    {
      if recordId in instances {
        instances := instances[recordId := instances[recordId].(status := InstanceStatus.Cancelled, completedAt := Some(now))];
      }
      schedules := CancelPending(schedules, recordId);
    }

    /** One pass of the loop of `processScheduledEmails`: deliver the i-th selected row, then mark it sent. */
    method ProcessRow(snapshot: Store, batch: seq<nat>, i: nat, now: int, outcomes: nat -> TransportOutcome)
      requires Valid() && WellLinked(snapshot) && InRange(snapshot, batch) && i < |batch|
      requires State() == RunBatch(catalog, snapshot, batch[..i], now, outcomes)
      modifies this
      ensures Valid() && nextId == old(nextId)
      ensures State() == RunBatch(catalog, snapshot, batch[..i + 1], now, outcomes)
    {
      RunBatchUnfold(catalog, snapshot, batch, i, now, outcomes);
      var row := snapshot.schedules[batch[i]];
      var owner := snapshot.instances[row.recordId];
      var sent := SendWorkflowEmail(row.recordId, row.stepIndex, owner.userEmail, owner.userId, owner.metadata, now, outcomes(i));
      schedules := schedules[batch[i] := schedules[batch[i]].(status := Sent, sentAt := Some(now))];
    }

    /**
     * `processScheduledEmails`, with `outcomes(k)` the provider's answer for
     * the k-th selected row. Returns how many rows were processed.
     */
    method ProcessScheduledEmails(now: int, outcomes: nat -> TransportOutcome) returns (processed: nat)
      requires Valid()
      modifies this
      ensures Valid()
      ensures (State(), processed) == Process(catalog, old(State()), now, outcomes)
      ensures nextId == old(nextId)
    {
      var snapshot := State();
      var batch := DueBatch(schedules, now);
      var i := 0;
      while i < |batch|
        invariant 0 <= i <= |batch|
        invariant Valid() && nextId == old(nextId)
        invariant State() == RunBatch(catalog, snapshot, batch[..i], now, outcomes)
      {
        ProcessRow(snapshot, batch, i, now, outcomes);
        i := i + 1;
      }
      assert batch[..i] == batch;
      processed := |batch|;
    }
  }
}
