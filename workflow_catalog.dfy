/**
 * The static workflow catalog of src/lib/email-workflows.ts (`EMAIL_WORKFLOWS`)
 * and the names the email template module exports, which is all the engine
 * needs to know of the template renderer.
 */
module WorkflowCatalog {
  import opened Wrappers

  /** A metadata value; the source takes any JSON value. */
  datatype MetaValue = StrValue(s: string) | BoolValue(b: bool) | IntValue(n: int)

  /** The metadata bag handed to `startWorkflow`; an absent bag is the empty map. */
  type Metadata = map<string, MetaValue>

  datatype Trigger =
    | UserSignup
    | PrelanderCreated
    | PrelanderDownloaded
    | PrelanderHosted
    | TrialExpiring
    | SubscriptionCancelled
    | Manual

  /**
   * An `EmailStep`. `delayHours` counts hours after the previous step; the
   * optional `condition` is a predicate over the step's data bag.
   */
  datatype Step = Step(
    id: string,
    name: string,
    subject: string,
    templateKey: string,
    delayHours: nat,
    condition: Option<Metadata -> bool>)

  datatype Workflow = Workflow(id: string, name: string, trigger: Trigger, enabled: bool, steps: seq<Step>)

  /** A step without a condition, as every shipped step is. */
  function Plain(id: string, name: string, subject: string, templateKey: string, delayHours: nat): Step {
    Step(id, name, subject, templateKey, delayHours, None)
  }

  /** `EMAIL_WORKFLOWS`: five enabled workflows, each opening with an email sent at once. */
  function EmailWorkflows(): (catalog: seq<Workflow>)
    ensures |catalog| == 5
    ensures forall i :: 0 <= i < |catalog| ==>
      catalog[i].enabled && |catalog[i].steps| > 0 && catalog[i].steps[0].delayHours == 0
  {
    [ Workflow("onboarding", "User Onboarding Sequence", UserSignup, true, [
        Plain("welcome", "Welcome Email", "\U{1F389} Welcome to PrelanderAI!", "welcome", 0),
        Plain("getting_started", "Getting Started Guide", "\U{1F680} Create Your First Prelander", "getting_started", 24),
        Plain("tips_tricks", "Tips & Best Practices", "\U{1F4A1} Pro Tips for Better Prelanders", "tips_tricks", 72),
        Plain("upgrade_prompt", "Upgrade Benefits", "\U{2B50} Unlock Premium Features", "upgrade_prompt", 120)]),
      Workflow("prelander_created", "Prelander Creation Follow-up", PrelanderCreated, true, [
        Plain("creation_success", "Creation Confirmation", "\U{2705} Your Prelander is Ready!", "prelander_created", 0),
        Plain("optimization_tips", "Optimization Tips", "\U{1F4C8} Optimize Your Prelander Performance", "optimization_tips", 48)]),
      Workflow("download_workflow", "Download & Hosting Guide", PrelanderDownloaded, true, [
        Plain("download_password", "Download Password", "\U{1F510} Your Secure Download Password", "download_password", 0),
        Plain("hosting_help", "Hosting Assistance", "\U{1F310} Need Help with Hosting?", "hosting_help", 24)]),
      Workflow("hosting_workflow", "Hosted Prelander Follow-up", PrelanderHosted, true, [
        Plain("hosting_success", "Hosting Confirmation", "\U{1F389} Your Prelander is Live!", "hosting_success", 0),
        Plain("performance_check", "Performance Check-in", "\U{1F4CA} How is Your Prelander Performing?", "performance_check", 168)]),
      Workflow("trial_expiring", "Trial Expiration Reminders", TrialExpiring, true, [
        Plain("trial_7days", "7 Days Before Expiration", "\U{23F0} Your Trial Expires in 7 Days", "trial_7days", 0),
        Plain("trial_3days", "3 Days Before Expiration", "\U{26A0}\U{FE0F} Only 3 Days Left in Your Trial", "trial_3days", 96),
        Plain("trial_1day", "1 Day Before Expiration", "\U{1F6A8} Last Day of Your Trial!", "trial_1day", 48)])
    ]
  }

  /** The functions the email template module exports, by name. */
  const EmailTemplateNames: set<string> := {
    "welcome", "getting_started", "tips_tricks", "upgrade_prompt", "prelander_created",
    "optimization_tips", "download_password", "hosting_help", "hosting_success",
    "performance_check", "trial_7days", "trial_3days", "trial_1day"
  }

  /** `getEmailTemplate` as a key lookup: a template exists for the key. */
  predicate HasEmailTemplate(templateKey: string) {
    templateKey in EmailTemplateNames
  }

  /**
   * `EMAIL_WORKFLOWS.find(w => w.id === id)`, as the position of the first
   * workflow with that id.
   */
  function FindWorkflow(catalog: seq<Workflow>, id: string): (r: Option<nat>)
    ensures r.None? <==> forall j :: 0 <= j < |catalog| ==> catalog[j].id != id
    ensures r.Some? ==> r.value < |catalog| && catalog[r.value].id == id
    ensures r.Some? ==> forall j :: 0 <= j < r.value ==> catalog[j].id != id
  {
    if catalog == [] then None
    else if catalog[0].id == id then Some(0)
    else match FindWorkflow(catalog[1..], id)
      case None => None
      case Some(k) => Some(k + 1)
  }

  /** No two workflows of the catalog share an id. */
  predicate DistinctIds(catalog: seq<Workflow>) {
    forall i, j :: 0 <= i < j < |catalog| ==> catalog[i].id != catalog[j].id
  }

  /**
   * What the engine relies on from a catalog: distinct ids, no empty step
   * list, and a template for every step.
   */
  predicate CatalogWellFormed(catalog: seq<Workflow>) {
    && DistinctIds(catalog)
    && (forall i :: 0 <= i < |catalog| ==> |catalog[i].steps| > 0)
    && (forall i, k :: 0 <= i < |catalog| && 0 <= k < |catalog[i].steps| ==> HasEmailTemplate(catalog[i].steps[k].templateKey))
  }

  /** In a catalog with distinct ids, looking up a workflow's id finds that workflow. */
  lemma FindInWellFormed(catalog: seq<Workflow>, i: nat)
    requires DistinctIds(catalog) && i < |catalog|
    ensures FindWorkflow(catalog, catalog[i].id) == Some(i)
  {
  }

  /** Some step of the catalog uses the template. */
  predicate UsesTemplate(catalog: seq<Workflow>, templateKey: string) {
    exists i, k :: 0 <= i < |catalog| && 0 <= k < |catalog[i].steps| && catalog[i].steps[k].templateKey == templateKey
  }

  /** The shipped catalog: ids distinct, every step list non-empty, every template key exported. */
  lemma ShippedCatalogWellFormed()
    ensures CatalogWellFormed(EmailWorkflows())
  {
  }

  /** Every exported template is rendered by some step of the shipped catalog. */
  lemma EveryTemplateIsUsed()
    ensures forall templateKey :: HasEmailTemplate(templateKey) ==> UsesTemplate(EmailWorkflows(), templateKey)
  {
    var c := EmailWorkflows();
    var used := {
      c[0].steps[0].templateKey, c[0].steps[1].templateKey, c[0].steps[2].templateKey, c[0].steps[3].templateKey,
      c[1].steps[0].templateKey, c[1].steps[1].templateKey,
      c[2].steps[0].templateKey, c[2].steps[1].templateKey,
      c[3].steps[0].templateKey, c[3].steps[1].templateKey,
      c[4].steps[0].templateKey, c[4].steps[1].templateKey, c[4].steps[2].templateKey};
    assert EmailTemplateNames <= used;
  }

  /** The bag a step's condition and template see: the metadata, then `userId` and `userEmail`. */
  function StepData(metadata: Metadata, userId: string, userEmail: string): (data: Metadata)
    ensures data.Keys == metadata.Keys + {"userId", "userEmail"}
    ensures data["userId"] == StrValue(userId) && data["userEmail"] == StrValue(userEmail)
    ensures forall k :: k in metadata && k != "userId" && k != "userEmail" ==> data[k] == metadata[k]
  {
    metadata["userId" := StrValue(userId)]["userEmail" := StrValue(userEmail)]
  }

  /** A step is sent unless it has a condition that the step data fails. */
  predicate ConditionHolds(step: Step, metadata: Metadata, userId: string, userEmail: string) {
    step.condition.None? || step.condition.value(StepData(metadata, userId, userEmail))
  }
}
