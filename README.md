# NanoKit core, modelled in Dafny

NanoKit (PrelanderAI) builds promotional landing pages from templates and keeps
its users engaged with timed email sequences. This project models four parts of
it and proves properties of the model:

- **The email workflow engine** (`src/lib/email-workflows.ts`). A fixed catalog
  of workflows, each an ordered list of steps with a delay in hours. Starting a
  workflow records an instance. Each step is then delivered inline or queued in
  a schedule table, and a cron run drains the due rows. The three database
  tables (`email_workflows`, `email_schedules`, `email_logs`) are fields of the
  class `WorkflowEngine.Engine`. Its methods update them in place, in the order
  the source issues its writes. Each method is proved to leave exactly the
  tables described by a pure function of module `WorkflowSpec` (`SendStep`,
  `StartSpec`, `Stop`, `Process`). The properties the code promises are proved
  about those functions. `WorkflowScenarios` proves what the functions yield
  for the shipped onboarding sequence and for two small catalogs.
- **The template field registry** (`src/lib/template-config.ts`). Module
  `TemplateConfig` holds the table of editable fields per template and the three
  lookups over it.
- **The validation schemas** (`src/lib/types.ts`). Module `SiteTypes` gives each
  schema as the list of issues its validator reports. A plain predicate says
  when an input is acceptable, and the contracts tie the two together. The
  hex-colour rule is a small anchored pattern matcher. A lemma proves that it
  accepts exactly `#` followed by six hex digits, in either case.
- **The dashboard list logic** (`src/app/dashboard/page.tsx`). Module
  `Dashboard` covers which sites a view shows and the counters above the list.
  It also gives the list updates after an archive toggle or a delete as
  functions from the old list to the new one.

Time is a whole number of hours passed in as `now`. The mail provider is an
answer passed in per message: `Accepted(messageId)` or `Refused(error)`. For a
cron run it is a function from a row's position in the batch to that answer.
Database ids are natural numbers, and the engine hands them out in order. The
catalog is a constructor argument of the engine; production passes
`WorkflowCatalog.EmailWorkflows()`.

Where the documented behaviour and the code differ, the model follows the code:

- `sendWorkflowEmail` never reads the instance's status. A cancelled or
  completed instance is still mailed and advanced (`WorkflowSpec.SendIgnoresStatus`).
- Only step 0 can be delivered inline. A later step with delay 0 is queued, due
  at once, and waits for the next cron run (`WorkflowScenarios.ZeroDelaySecondStepIsQueued`).
- A skipped step does not advance `current_step`. A skipped last step leaves the
  instance active, and nothing in the engine ever completes it (`WorkflowScenarios.SkippedLastStepStaysActive`).
- `stopWorkflow` also overwrites a completed instance (`WorkflowScenarios.StopOverridesCompleted`).
- `startWorkflow` reports success even when the inline first email failed. The
  instance then stays at step 0 with nothing queued (`WorkflowScenarios.OnboardingStartsDespiteRefusal`).
- The `TEMPLATE_CONFIGS` table also configures `t10`, which the `TemplateId`
  union and the create-site enum do not allow (`TemplateConfig.ConfiguredBeyondTemplateIds`).
- The create-site schema accepts any non-empty industry, not only the
  `INDUSTRIES` list (`SiteTypes.IndustryIsFreeText`, `SiteTypes.UnlistedIndustryAccepted`).

## Model

| member | source | states |
|---|---|---|
| WorkflowCatalog.FindWorkflow | src/lib/email-workflows.ts:184 | the position of the first workflow with the id; none exactly when no workflow has it |
| WorkflowCatalog.FindInWellFormed | src/lib/email-workflows.ts:251 | in any catalog with distinct ids (whatever its steps), looking up a workflow's id finds that workflow |
| WorkflowCatalog.EmailWorkflows | src/lib/email-workflows.ts:32-173 | the five shipped workflows are all enabled, and each opens with a step of delay 0, so every start sends its first email inline |
| WorkflowCatalog.HasEmailTemplate | src/lib/email-workflows.ts:405-419 | `getEmailTemplate` succeeds exactly for the 13 names the template module exports; what it says of the shipped catalog is stated by `ShippedCatalogWellFormed` and `EveryTemplateIsUsed` |
| WorkflowCatalog.ShippedCatalogWellFormed | src/lib/email-workflows.ts:32-173 | the shipped workflows have distinct ids and non-empty step lists, and every step's template key is a function the template module exports |
| WorkflowCatalog.EveryTemplateIsUsed | src/lib/email-workflows.ts:32-173 | every function the template module exports is rendered by some step of the shipped catalog |
| WorkflowCatalog.StepData | src/lib/email-workflows.ts:259 | a condition sees the metadata with `userId` and `userEmail` added over it, and every other key kept |
| WorkflowSpec.Enqueue | src/lib/email-workflows.ts:358-376 | `scheduleWorkflowEmail` appends one pending row for the step, due `delayHours` after `now` and so never before it; instances and logs are unchanged |
| WorkflowSpec.Fail | src/lib/email-workflows.ts:338-351 | the catch block reports the error and appends one failed log line carrying it; instances and schedule rows are unchanged |
| WorkflowSpec.SendStep | src/lib/email-workflows.ts:232-353 | the outcome of a send is classified by its cause. A missing record, definition or step, a missing template or a refused message each write one failed log line and nothing else. A failed condition writes no log, changes no instance and queues the following step if there is one. A delivery writes one sent log line and sets `currentStep` to step + 1 and `lastEmailSentAt`. It then queues the following step (even with delay 0) or completes the instance. Tables only grow, rows keep their owners |
| WorkflowSpec.SendIgnoresStatus | src/lib/email-workflows.ts:241-337 | a send's outcome and writes do not depend on the instance's status |
| WorkflowSpec.OnlyDeliveryAdvances | src/lib/email-workflows.ts:258-273 | only a delivery changes an instance, and then `currentStep` becomes step + 1 |
| WorkflowSpec.StartSpec | src/lib/email-workflows.ts:178-227 | an unknown or disabled workflow fails with nothing written. Otherwise an active instance at step 0 with the metadata is recorded. Step 0 is then sent inline when its delay is 0, or queued at `now + delay`. The start succeeds exactly when the workflow is enabled and has a step, whatever the inline send did |
| WorkflowSpec.CancelPending | src/lib/email-workflows.ts:393-397 | the instance's pending rows become cancelled, all other rows are unchanged, and none of its rows is left pending |
| WorkflowSpec.Stop | src/lib/email-workflows.ts:381-400 | the instance becomes cancelled with `completedAt` set, whatever its status. Its pending rows are cancelled. Nothing else changes |
| WorkflowSpec.CancelPendingIdempotent | src/lib/email-workflows.ts:393-397 | cancelling an instance's pending rows twice is cancelling them once |
| WorkflowSpec.StopIdempotent | src/lib/email-workflows.ts:381-400 | stopping twice equals stopping once at the second call's time |
| WorkflowSpec.DueFrom | src/lib/email-workflows.ts:429-433 | exactly the pending rows due by `now`, in increasing table position |
| WorkflowSpec.DueBatch | src/lib/email-workflows.ts:429-434 | at most 100 positions, each of a pending row due by `now`, in increasing order. A batch of fewer than 100 holds every due row |
| WorkflowSpec.RunBatch | src/lib/email-workflows.ts:440-456 | the loop keeps every row linked to an instance and creates no instance. Rows it adds are pending, and it adds at most one log line per processed row |
| WorkflowSpec.RunBatchUnfold | src/lib/email-workflows.ts:440-456 | one more pass sends the next row against the tables so far, then marks that row sent |
| WorkflowSpec.BatchMarksExactlyItsRows | src/lib/email-workflows.ts:451-455 | after the loop, an old row is marked sent at `now` exactly when it was in the batch, and is otherwise untouched |
| WorkflowSpec.Process | src/lib/email-workflows.ts:424-463 | `processScheduledEmails` reports at most 100 rows, keeps every row linked to an instance, creates no instance, drops no row, and adds at most one log line per reported row |
| WorkflowSpec.ProcessHandlesDueRows | src/lib/email-workflows.ts:424-458 | a run reports as many rows as it selected, at most 100, each pending and due. Each ends up sent at `now` whatever its delivery did. Rows outside the batch are untouched. A short batch leaves no due row pending |
| WorkflowEngine.Engine.constructor | src/lib/email-workflows.ts:32 | the engine starts with empty tables over the given catalog |
| WorkflowEngine.Engine.ScheduleWorkflowEmail | src/lib/email-workflows.ts:358-376 | appends one pending row for the step, due `delayHours` after `now`. Nothing else changes |
| WorkflowEngine.Engine.LogFailure | src/lib/email-workflows.ts:338-351 | appends one failed log line with the error and reports the failure |
| WorkflowEngine.Engine.SendWorkflowEmail | src/lib/email-workflows.ts:232-353 | the tables and the result are exactly `WorkflowSpec.SendStep`'s. Rows stay linked to instances |
| WorkflowEngine.Engine.StartWorkflow | src/lib/email-workflows.ts:178-227 | the tables and the result are exactly `WorkflowSpec.StartSpec`'s with a fresh id. The id counter moves only when an instance is recorded |
| WorkflowEngine.Engine.StopWorkflow | src/lib/email-workflows.ts:381-400 | the tables become exactly `WorkflowSpec.Stop`'s |
| WorkflowEngine.Engine.ProcessRow | src/lib/email-workflows.ts:441-455 | one pass of the loop takes the tables from the batch prefix's result to the next prefix's |
| WorkflowEngine.Engine.ProcessScheduledEmails | src/lib/email-workflows.ts:424-463 | the tables and the reported count are exactly `WorkflowSpec.Process`'s. The loop invariant ties each prefix of the batch to `RunBatch` |
| WorkflowScenarios.OnboardingSendsWelcome | src/lib/email-workflows.ts:34-69 | starting onboarding with an accepted message logs the welcome email, moves the instance to step 1 and queues step 1 at `now + 24` |
| WorkflowScenarios.OnboardingStartsDespiteRefusal | src/lib/email-workflows.ts:213-222 | with the welcome email refused, the start still succeeds. The instance stays at step 0, one failed line is logged and nothing is queued |
| WorkflowScenarios.CronBeforeDueDoesNothing | src/lib/email-workflows.ts:429-434 | a run before step 1 is due selects nothing and changes nothing |
| WorkflowScenarios.CronDeliversGettingStarted | src/lib/email-workflows.ts:424-458 | a run when step 1 is due processes one row, marks it sent, moves the instance to step 2 and queues step 2 at 72 hours later |
| WorkflowScenarios.ZeroDelaySecondStepIsQueued | src/lib/email-workflows.ts:318-326 | after an inline first step, a second step with delay 0 is queued at `now`, not sent |
| WorkflowScenarios.SkippedLastStepStaysActive | src/lib/email-workflows.ts:258-273 | a skipped last step leaves the instance active at step 0 with no log and no row |
| WorkflowScenarios.StopOverridesCompleted | src/lib/email-workflows.ts:386-389 | a completed instance becomes cancelled when stopped |
| TemplateConfig.TemplateConfigs | src/lib/template-config.ts:52-548 | `TEMPLATE_CONFIGS` configures exactly t6, t7, t9, t10 and t14 to t18, each with at least one field |
| TemplateConfig.Keys | src/lib/template-config.ts:563 | `Object.keys` of a config's fields: one key per field, in declaration order |
| TemplateConfig.GetTemplateConfig | src/lib/template-config.ts:553-555 | a config exists exactly for t6, t7, t9, t10 and t14 to t18, and it is that id's `TEMPLATE_CONFIGS` entry, carrying the requested id |
| TemplateConfig.HasKey | src/lib/template-config.ts:572 | `key in fields` holds exactly when some entry is stored under the key |
| TemplateConfig.GetTemplateEditableFields | src/lib/template-config.ts:560-564 | no fields for an unknown template, otherwise the field keys in declaration order |
| TemplateConfig.TemplateSupportsField | src/lib/template-config.ts:569-573 | false for an unknown template, otherwise whether some field is stored under the id |
| TemplateConfig.SupportsIffEditable | src/lib/template-config.ts:560-573 | a template supports a field exactly when the field is among its editable fields |
| TemplateConfig.ScratchCardEditableFields | src/lib/template-config.ts:491-546 | t18 offers headline, subheadline, cta, ctaUrl, backgroundColor and backgroundImage, in that order |
| TemplateConfig.TableIsWellKeyed | src/lib/template-config.ts:52-548 | every config's id is its table key, and every field's id is the key it is stored under |
| TemplateConfig.HeadlineAndCtaUrlRequired | src/lib/template-config.ts:52-548 | every configured template has a required headline and a required ctaUrl field |
| TemplateConfig.ConfiguredTemplatesSupportHeadlineAndCtaUrl | src/lib/template-config.ts:553-573 | for every template with a config, `templateSupportsField` is true for headline and ctaUrl, and both are among its editable fields |
| TemplateConfig.ConfiguredBeyondTemplateIds | src/lib/template-config.ts:52-548 | every `TemplateId` has a config, and t10 has one though it is no `TemplateId` |
| SiteTypes.HexColorPatternMeaning | src/lib/types.ts:124-126 | the pattern `^#[0-9A-F]{6}$` with the case-insensitive flag matches exactly the 7-character strings of `#` and six hex digits |
| SiteTypes.CheckHexColor | src/lib/types.ts:138-140 | the colour check accepts exactly the hex colours |
| SiteTypes.OptionalColorIssues | src/lib/types.ts:124-126 | an absent colour is fine, a present one must be a hex colour |
| SiteTypes.PreferredColorsIssues | src/lib/types.ts:123-127 | no preferences is fine, otherwise exactly one invalid-colour issue for each present colour that is not a hex colour, none repeated |
| SiteTypes.CreateSiteIssues | src/lib/types.ts:116-128 | an issue is reported exactly when its rule is broken: template id not in the enum, empty brand name or industry, a description under 10 characters, a ctaUrl that is neither absent, empty nor a URL, or a bad preferred colour. No issues exactly when the input is valid |
| SiteTypes.IndustryIsFreeText | src/lib/types.ts:119 | the issues do not depend on which non-empty industry is given, listed in `INDUSTRIES` or not |
| SiteTypes.UnlistedIndustryAccepted | src/lib/types.ts:119 | for example, a site in "Space Mining", which `INDUSTRIES` lacks, is accepted |
| SiteTypes.OpenAIResponseIssues | src/lib/types.ts:130-135 | valid exactly when the headline has at most 100 characters, the subheadline at most 200, the cta at most 50 and there are at most 6 keywords. Each of the four issues appears exactly when its own bound is exceeded |
| SiteTypes.RequiredColorIssues | src/lib/types.ts:138 | a required colour must be present and a hex colour; an absent colour is reported as required, a malformed one as an invalid hex colour |
| SiteTypes.ColorPaletteIssues | src/lib/types.ts:137-141 | a palette is valid exactly when all three colours are present and are hex colours |
| SiteTypes.PaletteIsAcceptablePreference | src/lib/types.ts:123-141 | a valid palette is also acceptable as preferred colours |
| Dashboard.Filter | src/app/dashboard/page.tsx:263 | filtering keeps exactly the elements the predicate accepts, each as often as it occurs, in their order, and never lengthens the list |
| Dashboard.FilterTwice | src/app/dashboard/page.tsx:263-270 | filtering by one predicate and then another equals filtering by both |
| Dashboard.FilterKeepsAll | src/app/dashboard/page.tsx:268 | filtering by a predicate every element meets changes nothing |
| Dashboard.FilterPartition | src/app/dashboard/page.tsx:146 | what a predicate keeps and what its negation keeps add up to the whole list |
| Dashboard.GetFilteredSites | src/app/dashboard/page.tsx:262-274 | a site is shown exactly when it is in the archive scope (draft when showing archived, published otherwise) and the view mode accepts it. Every occurrence of such a site is shown, and the shown list keeps the list's order |
| Dashboard.GetViewModeStats | src/app/dashboard/page.tsx:276-283 | each counter is the length of the list its view shows. Published and downloaded never exceed all. Outside the archive, published equals all |
| Dashboard.ArchiveToggle | src/app/dashboard/page.tsx:173-193 | after a successful update, every site with the clicked id gets the flipped status of the clicked site. Other sites and all other fields are unchanged. On failure nothing changes |
| Dashboard.ToggleFlipsClickedSite | src/app/dashboard/page.tsx:178 | the clicked site's status changes |
| Dashboard.ToggleTwiceRestores | src/app/dashboard/page.tsx:178-193 | toggling a site and then its updated self gives back the original list, when the sites with that id share its status (ids are unique) |
| Dashboard.DeleteConfirm | src/app/dashboard/page.tsx:123-146 | with no site chosen or a failed delete the list is unchanged. Otherwise a site stays exactly when its id differs from the chosen one, in order |
| Dashboard.DeleteRemovesExactlyMatching | src/app/dashboard/page.tsx:146 | a delete removes exactly as many sites as carry the chosen id |

## Left out

- Database I/O: every write is taken to succeed. A failing insert or update, and the `throw` it causes in `startWorkflow` or `processScheduledEmails`, are not modelled. A failed log insert in the catch block of `sendWorkflowEmail` is not modelled either.
- The order of the cron query: the database returns due rows in no stated order. The model takes the first 100 in table order.
- A schedule row without an instance: the join in `processScheduledEmails` is assumed to find one. The engine's invariant keeps every row linked, because instances are never deleted.
- Time: wall-clock timestamps, ISO strings and time zones are replaced by whole hours.
- Concurrency: overlapping cron runs or starts are out of scope. Each operation runs alone.
- The mail provider (`src/lib/sendgrid.ts`) is not part of this model. Its answer, including the "not configured" refusal, is a parameter.
- Email bodies: the template functions of `src/lib/email-templates.ts` are not modelled. Only their names are, which is all `getEmailTemplate` consults.
- Error texts: thrown messages are replaced by the `SendError` cases. The `{ success, error }` result of a failed `startWorkflow` carries no message.
- The log's constant fields (`status`, `provider`) and all console output are not modelled.
- Record ids are natural numbers handed out in order instead of database UUIDs. `startWorkflow` always gets a fresh id.
- Metadata values are strings, booleans and integers instead of arbitrary JSON.
- Field placeholders and descriptions of `TEMPLATE_CONFIGS` are not modelled. The template names, field ids, labels, types and flags are.
- SiteTypes.CreateSiteIssues: the URL check of the validation library is the parameter `isUrl`. String lengths count characters, not UTF-16 code units. Each key reports at most one issue.
- Conditions that throw: a step's condition is a total function here. In the source a throwing condition is caught and logged as a failure.
- The prototype chain in `getTemplateConfig` and in the `in` test of `templateSupportsField`: the table and each `fields` object are plain maps here. In the source an id such as `constructor` finds an inherited value, so `getTemplateEditableFields` and `templateSupportsField` then throw. An inherited key such as `toString` is also reported as a supported field, where the model answers false.
- The clock within a cron run: one `now` serves the whole run. The source reads the clock again for each send and each mark.
- Missing or wrongly typed keys in the create-site and OpenAI inputs: the inputs are typed records here. Only the colour palette models a missing key.
- The React state, modals, alerts, fetching and the database calls of the dashboard page are not modelled. Only the list computations are.
