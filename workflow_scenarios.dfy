/**
 * What the workflow functions yield for concrete inputs: the onboarding
 * sequence of the shipped catalog, and small catalogs with a zero delay after
 * the first step and with a step whose condition fails.
 */
module WorkflowScenarios {
  import opened Wrappers
  import opened WorkflowCatalog
  import opened WorkflowSpec

  function Empty(): Store {
    Store(map[], [], [])
  }

  /** The instance `startWorkflow("onboarding", …)` records at hour `now`. */
  function Onboarding(now: int): Instance {
    NewInstance("onboarding", "ann@example.com", "u1", map[], now)
  }

  /**
   * Starting the onboarding sequence sends the welcome email inline, moves the
   * instance to step 1 and queues "getting_started" 24 hours later.
   */
  lemma OnboardingSendsWelcome(now: int, messageId: string)
    ensures
      var out := StartSpec(EmailWorkflows(), Empty(), 0, "onboarding", "ann@example.com", "u1", map[], now, Accepted(messageId));
      && out.1 == Started(0)
      && out.0.instances == map[0 := Onboarding(now).(currentStep := 1, lastEmailSentAt := Some(now))]
      && out.0.schedules == [PendingRow(0, 1, now + 24)]
      && out.0.logs == [SentLog("u1", "onboarding", 0, "welcome", "ann@example.com",
                                "\U{1F389} Welcome to PrelanderAI!", messageId, now)]
  {
    assert FindWorkflow(EmailWorkflows(), "onboarding") == Some(0);
  }

  /**
   * When the inline welcome email is refused, the start still reports success,
   * but the instance stays at step 0 with nothing queued: the sequence stalls.
   */
  lemma OnboardingStartsDespiteRefusal(now: int, error: string)
    ensures
      var out := StartSpec(EmailWorkflows(), Empty(), 0, "onboarding", "ann@example.com", "u1", map[], now, Refused(error));
      && out.1 == Started(0)
      && out.0.instances == map[0 := Onboarding(now)]
      && out.0.schedules == []
      && out.0.logs == [FailedLog("u1", 0, "ann@example.com", TransportError(error), now)]
  {
    assert FindWorkflow(EmailWorkflows(), "onboarding") == Some(0);
  }

  /** The onboarding tables right after a delivered welcome email. */
  function AfterWelcome(now: int, messageId: string): Store {
    StartSpec(EmailWorkflows(), Empty(), 0, "onboarding", "ann@example.com", "u1", map[], now, Accepted(messageId)).0
  }

  /** A run one hour before "getting_started" is due selects nothing and changes nothing. */
  lemma CronBeforeDueDoesNothing(now: int, messageId: string, outcomes: nat -> TransportOutcome)
    ensures
      var s := AfterWelcome(now, messageId);
      WellLinked(s) && Process(EmailWorkflows(), s, now + 23, outcomes) == (s, 0)
  {
    OnboardingSendsWelcome(now, messageId);
    var s := AfterWelcome(now, messageId);
    assert DueFrom(s.schedules, now + 23, 1) == [];
  }

  /**
   * A run when "getting_started" is due delivers it, marks its row sent, moves
   * the instance to step 2 and queues "tips_tricks" 72 hours later.
   */
  lemma CronDeliversGettingStarted(now: int, messageId: string, next: string)
    ensures
      var s := AfterWelcome(now, messageId);
      WellLinked(s) &&
      var out := Process(EmailWorkflows(), s, now + 24, k => Accepted(next));
      && out.1 == 1
      && out.0.schedules == [ScheduleRow(0, 1, now + 24, Sent, Some(now + 24)), PendingRow(0, 2, now + 24 + 72)]
      && out.0.instances[0].currentStep == 2
      && out.0.instances[0].status == Active
      && |out.0.logs| == 2
  {
    OnboardingSendsWelcome(now, messageId);
    var c := EmailWorkflows();
    var s := AfterWelcome(now, messageId);
    var outcomes: nat -> TransportOutcome := k => Accepted(next);
    assert DueFrom(s.schedules, now + 24, 1) == [];
    var batch := DueBatch(s.schedules, now + 24);
    assert batch == [0];
    // the one pass of the loop: deliver step 1 of instance 0, then mark row 0 sent
    RunBatchUnfold(c, s, batch, 0, now + 24, outcomes);
    assert batch[..1] == batch && batch[..0] == [];
    assert FindWorkflow(c, "onboarding") == Some(0);
    assert StepsOf(c, s, 0) == c[0].steps;
    var sent := SendStep(c, s, 0, 1, "ann@example.com", "u1", map[], now + 24, Accepted(next));
    assert sent.1.EmailSent?;
    assert sent.0.schedules == s.schedules + [PendingRow(0, 2, now + 24 + 72)];
  }

  /** A two-step workflow whose steps both have delay 0. */
  function BackToBack(): seq<Workflow> {
    [Workflow("burst", "Burst", Manual, true, [
      Plain("first", "First", "First", "welcome", 0),
      Plain("second", "Second", "Second", "getting_started", 0)])]
  }

  /** A second step with delay 0 is not sent inline: it is queued, due at once. */
  lemma ZeroDelaySecondStepIsQueued(now: int, messageId: string)
    ensures
      var out := StartSpec(BackToBack(), Empty(), 0, "burst", "ann@example.com", "u1", map[], now, Accepted(messageId));
      && out.1 == Started(0)
      && out.0.schedules == [PendingRow(0, 1, now)]
      && |out.0.logs| == 1
      && out.0.instances[0].currentStep == 1
  {
  }

  function NeverCondition(): Metadata -> bool {
    m => false
  }

  /** A one-step workflow whose only step's condition always fails. */
  function AlwaysSkipped(): seq<Workflow> {
    [Workflow("quiet", "Quiet", Manual, true, [Step("only", "Only", "Only", "welcome", 0, Some(NeverCondition()))])]
  }

  /** Skipping the last step neither advances nor completes the instance: it stays active at step 0. */
  lemma SkippedLastStepStaysActive(now: int, transport: TransportOutcome)
    ensures
      var out := StartSpec(AlwaysSkipped(), Empty(), 0, "quiet", "ann@example.com", "u1", map[], now, transport);
      && out.1 == Started(0)
      && out.0.instances == map[0 := NewInstance("quiet", "ann@example.com", "u1", map[], now)]
      && out.0.schedules == []
      && out.0.logs == []
  {
    assert !ConditionHolds(AlwaysSkipped()[0].steps[0], map[], "u1", "ann@example.com");
  }

  /** Stopping a completed instance turns it into a cancelled one. */
  lemma StopOverridesCompleted(t: Store, recordId: nat, now: int)
    requires recordId in t.instances && t.instances[recordId].status == Completed
    ensures Stop(t, recordId, now).instances[recordId].status == InstanceStatus.Cancelled
  {
  }
}
