# Recruitment platform: a verified model

The backend of this repository is a service layer over a relational store. Five of its
parts carry state machines or protocols, and this project models those five and proves what
they keep, over every run:

| part | state machine and theorems | the services, as classes proved against it |
|---|---|---|
| recruitment pipeline | `StageRows`, `Pipeline`, `Frames`, `JobLifecycle`, `Applications`, `Templates`, `PipelineAnswers` | `PipelineStore.Store` |
| sessions | `Sessions`, `Deadlines`, `Accounts`, `SingleFlight`, `Calls` | `AuthStore.AuthService`, `ApiClient.Client` |
| offers and onboarding | `Hiring`, `Lifecycle`, `HiringAnswers` | `HiringStore.Desk` |
| interviews | `Interviews`, `InterviewAnswers` | `InterviewStore.Panel` |
| organizations, members, invitations | `Organizations`, `OrganizationAnswers` | `OrganizationStore.Directory` |

`Paging` and `Counts` hold the arithmetic the list and dashboard endpoints share, `Witnesses` the
runs at which an expectation fails, `Common` the shared vocabulary.

How the parts fit together. A table is a `map` from primary key to row, or a `seq` where rows are
only appended. Each class has one field per table and one method per service method; it overwrites
its fields step by step as the service does, error branches included, and its `ensures` equates the
whole new state and the result with one step of the state machine, applied to the old state. The
theorems are about runs of that state machine. Each machine also has a small `Effect` datatype
listing everything a request may do to the tables a theorem is about; `Applications.StepEffect`,
`Sessions.StepEffect`, `Interviews.StepRows`, `Lifecycle.StepBoard` and `Lifecycle.StepOffers` prove that the
requests do nothing else.

The `Answers` modules say of each request when it gets which answer and what its columns are then, with
guards written out there and not taken from the state machine. From those they prove, over every run, that
the state tells what was asked for: `ApplicationTellsStory`, `OfferTellsStory`, `TaskTellsStory`, `EvaluationTellsStory`,
`RoleTellsStory`. `Deadlines`, `Accounts` and `Calls` do the same for sessions: what a token, an account's
columns or a call's end says of the statements and events before it.

Where a query may legally return different answers (which of several rows with one name a scan
indexes first, the sequence of rows with equal sort keys), the answer is an argument of the step,
constrained by `Possible`; the theorems hold for every answer allowed.

## Results that are conditions

Six expectations one could have of the code are false as they stand. The project proves exactly
when each holds, and `Witnesses` reaches a failing state of each from the empty store.

* Editing a pipeline does not always show the requested list. Nothing forces stage names to be
  distinct (backend/src/jobs/dto/replace-job-stages.dto.ts:15-21), and a repeated name that already has a
  row collapses into it. The edit shows the request if and only if `CleanEdit` holds
  (`EditRefinesRecreate`); for distinct requested names that is "no kept name has a second row"
  (`DistinctRequestClean`). `RepeatedNameCollapses` is the smallest failure, `StrandedApplicant` ends in one.
* The page's `isFinalStage` and the 422 of PASS do not always agree. They agree for every stage if and
  only if the orders are `Stepwise` (`FinalStageRule`). `StrandedApplicant` is a run after which the
  page still offers PASS to an applicant whose PASS is then refused.
* Password reset does not always end a session. docs/authentication.md:28 has it revoke all
  existing refresh tokens, and every token that exists at that moment does die (`ResetKillsTokens`). But a
  refresh that has already claimed its old token and not yet created the new one survives it: a
  session is over for good if and only if no such rotation is in flight (`ResetEndsLineage`);
  `RotationSurvivesReset` is a run where one is.
* Password reset does not always force a new login everywhere, which is what the same line gives as its
  purpose. Until the user's next login the user has no unrevoked token, in any continuation, if and
  only if no login of the user had already passed its password check and no rotation of theirs was in
  flight (`ResetForcesLogin`). In `LoginSurvivesReset` a login with the old password gets its token after
  the reset.
* Offer counts and status filters read the stored status, where an overdue offer nobody has read is
  still SENT. They agree with the answers of the other endpoints if and only if the status asked for is
  ACCEPTED or DECLINED or no such offer exists (`RawCountAgrees`). `UnreadOfferIsMiscounted` is a run
  with one.
* Two invitations with one key can both be accepted. An invitation stops counting as open when it
  expires, but a read still accepts it at that very instant, and an acceptance read in time commits however
  late its transaction runs. An invitation joins another that can still be committed if and only if one of
  its key lingers in one of these two ways (`InviteDuplicatesOnlyLingering`, and over whole runs
  `TwoCommittableOnlyIfOneLingers`). `InvitedTwiceAtExpiry` shows the first,
  `AcceptedTwiceAfterExpiry` the second: both invitations end up accepted.

The dashboard's subscription total equals the sum of its per-plan counts exactly when every
subscription's plan was read and has a non-empty key. The foreign key
(backend/prisma/migrations/20260904031049_init/migration.sql:670) and the seeded plans
(backend/prisma/seed.ts:220-246) guarantee both, and then the two are equal (`SubscriptionsByPlan`).

## Assumptions

* One request of the job, application, template, offer, onboarding and interview services, and
  of `removeMember`, `inviteStaff`, `cancelInvitation`, registration and review, is one atomic step:
  these services read their precondition first and then write by key, so statement-level
  interleavings could break the claims made here. The authentication service, whose writes are
  themselves guarded, is interleaved statement by statement; accepting an invitation is interleaved
  between its read and its transaction.
* The clock never runs backwards and one step reads it once. It is a natural number.
* Keys are numbers, each larger than any key already handed out. Passwords, tokens and their hashes are opaque
  numbers; generated tokens are fresh keys.
* The writes `setStages` issues together take effect in the order of the request; this matters for repeated names only.
* Unique columns are taken from the schema: one active application per job and candidate
  (backend/prisma/migrations/20260904031049_init/migration.sql:493), one offer per application (line 523),
  one checklist per offer (529), one role row per user, organization and role (447), one panel membership
  per interview and interviewer (517), one evaluation per membership (520).
* Bookkeeping columns the store does not keep are used only to state theorems: `createdIn` of an application,
  `lineage` and `parent` of a refresh token, the list of committed acceptances, the list of ticket effects.

## Model

| member | source | states |
|---|---|---|
| StageRows.ListingReads | backend/src/jobs/jobs.service.ts:174-183 | Whatever listing ordered by `order` the store returns, it reads a list of names with orders 0..n-1 exactly when the rows themselves are exact: order is a bijection onto the positions and each row carries the name there. |
| StageRows.PlaceRows | backend/src/jobs/jobs.service.ts:352-365 | After the write loop has placed any number of names: which rows exist, which are new and at what order, that no row changes owner or name, and that each reused row sits at the last position of its name. |
| StageRows.EditRows | backend/src/jobs/jobs.service.ts:328-372 | The whole diff, key by key: what survives, what is created, where every reused row ends up, and that all other rows are untouched. |
| StageRows.RecreateExact | backend/src/jobs/jobs.service.ts:328-372 | The naive reference, delete all rows and create one per name, always shows exactly the requested names and leaves other owners' rows alone. |
| StageRows.EditRefinesRecreate | backend/src/jobs/jobs.service.ts:328-372 | For every table, request and scan, the diff shows what delete-and-recreate shows if and only if the edit is clean. |
| StageRows.DistinctRequestClean | backend/src/jobs/jobs.service.ts:334-336 | For a request of distinct names, clean means that no kept name has a second row. |
| StageRows.DistinctEdit | backend/src/jobs/jobs.service.ts:328-372 | Distinct request on a pipeline of distinct names: exactly the requested list, again distinct, and every kept name keeps its row. |
| StageRows.EditIdempotent | backend/src/jobs/jobs.service.ts:328-372 | A second identical request drops nothing and changes nothing, whichever rows its scan indexes. |
| StageRows.EditSafe | backend/src/jobs/jobs.service.ts:328-372 | With no assumption on names: rows that are not dropped keep key, owner and name, other owners' rows are untouched, and a non-empty request leaves a non-empty pipeline. |
| StageRows.RepeatedNameCollapses | backend/src/jobs/dto/replace-job-stages.dto.ts:15-21 | Asking for A, A where one row A exists leaves a single row at order 1. |
| StageRows.FinalStageRule | frontend/app/(org)/org/jobs/[id]/applications/[appId]/page.tsx:53-54 | The page calls a stage final exactly when there is no next stage, for every stage of the pipeline, if and only if the orders are stepwise. |
| StageRows.ExactStepwise | backend/src/applications/applications.service.ts:386-394 | Orders 0..n-1 are stepwise, and a next stage exists exactly below n-1. |
| StageRows.GapStrandsAnApplication | backend/src/jobs/jobs.service.ts:352-365 | A request with a repeated kept name leaves orders 0 and 2: the page does not call the first stage final, and there is no stage after it. |
| Pipeline.SetStagesOutcome | backend/src/jobs/jobs.service.ts:328-372 | The edit is refused exactly when an application of the job, in whatever status, sits in a stage whose name the request lacks, and then nothing changes; otherwise only stages change, and the returned listing reads the request if and only if the edit is clean, always for distinct names on a pipeline of distinct names. |
| Pipeline.SetStagesSound | backend/src/jobs/jobs.service.ts:338-351 | The in-use check is enough: after any edit every application's stage still exists in its own job and every published job still has a stage, duplicate names included. |
| Pipeline.CreateIsRecreate | backend/src/pipeline-templates/pipeline-templates.service.ts:20-33 | Creating a template's rows is recreating them from nothing. |
| Frames.StepFrame | backend/src/jobs/jobs.service.ts:190-314 | Stages change only by an edit, jobs only by a job request, templates only by a template request, applications and their records only by a request about an application, and no key is handed back. |
| Pipeline.StepSound | backend/src/jobs/jobs.service.ts:190-314 | Every request keeps every reference resolvable: application to stage of its own job and organization, stage to job, template row to template, published job to at least one stage. |
| Pipeline.ReachableSound | backend/src/applications/applications.service.ts:97-144 | So in every reachable state, for any mix of edits, template applications, publishes, applications and decisions, duplicate names included. |
| Pipeline.CreateNeverThrows | backend/src/applications/applications.service.ts:115-118 | In every reachable state the lookup of the first stage finds one. |
| JobLifecycle.StepStatus | backend/src/jobs/jobs.service.ts:245-314 | What a request may do to one job's status: publish only a draft with stages, close only a published job, archive anything not archived, otherwise nothing. |
| JobLifecycle.StatusTellsStory | backend/src/jobs/jobs.service.ts:245-314 | Over every run a job's status tells exactly which of publish, close and archive succeeded, each at most once, closing only after publishing. |
| Applications.StepEffect | backend/src/applications/applications.service.ts:97-481 | Everything any request may do to applications, history, audit entries and notifications, with the condition under which it may. |
| Applications.ReplayLinks | backend/src/applications/applications.service.ts:285-323 | A history replays from one stage to another if and only if its first entry leaves the first, each entry leaves the stage the one before reached, and the last reaches the second. |
| Applications.EffectReplayable | backend/src/applications/applications.service.ts:396-408 | Moving an application and appending the history row keeps every application's history replaying to its current stage. |
| Applications.EffectOneActive | backend/src/applications/applications.service.ts:93-142 | No request creates a second active application for a job and candidate. |
| Applications.StepKeeps | backend/src/applications/applications.service.ts:329-481 | A step never touches a non-active application, changes only status, stage and reason of an active one, and never status and stage together. |
| Applications.TerminalIsFinal | backend/src/applications/applications.service.ts:177-191 | Once not active, an application's row is the same for ever, over any run. |
| Applications.EffectRecorded | backend/src/applications/applications.service.ts:348-384 | Per application: one audit entry of the right kind if hired or rejected, one notification if rejected, none otherwise. |
| Applications.EffectTotals | backend/src/applications/applications.service.ts:420-481 | In total: audit entries = rejected + hired applications, notifications = rejected applications. |
| Applications.ReachableValid | backend/src/applications/applications.service.ts:97-481 | All of this in every reachable state: references, replay, one active, accounting per application and in total. |
| Applications.ReachableReasons | backend/src/applications/applications.service.ts:348-384 | In every reachable state an application that is not rejected has no reason, and a rejected one's reason is that of its one rejection audit entry and of its one notification, which name the same source. |
| Applications.LastMoveResolves | backend/src/applications/applications.service.ts:285-323 | The last history entry's toStage is the application's current stage, and its row exists, across any later pipeline edit. |
| Applications.ReachableTidy | backend/src/jobs/jobs.service.ts:190-238 | As long as requests ask for distinct names, every pipeline has distinct names numbered 0..n-1 in every reachable state. |
| Applications.PassRefusedAtFinalStage | backend/src/applications/applications.service.ts:386-394 | On a stepwise pipeline PASS on an active application is refused with 422 exactly when the page shows its stage as final. |
| Applications.StepMovesUp | backend/src/applications/applications.service.ts:386-410 | A step moves an application only by a successful PASS, and then exactly one order up. |
| Applications.PassesBounded | backend/src/applications/applications.service.ts:386-410 | Between edits of its pipeline, whatever its names and orders, an application's order is where it started plus its number of passes, so it passes at most as often as it is below the highest order. |
| Applications.PassesBoundedExact | backend/src/applications/applications.service.ts:386-410 | With orders 0..n-1 that is n-1-order, and the orders stay so. |
| Templates.CreatedTemplateExact | backend/src/pipeline-templates/pipeline-templates.service.ts:20-33 | A created template holds exactly the names given, in order, repeats included. |
| Templates.UpdatedTemplateExact | backend/src/pipeline-templates/pipeline-templates.service.ts:67-104 | An updated template holds exactly the new names. |
| Templates.RunKeepsTemplate | backend/src/pipeline-templates/pipeline-templates.service.ts:67-119 | Any run that neither restages nor removes the template leaves its list as it was. |
| Templates.TemplateRoundTrip | backend/src/jobs/jobs.service.ts:203-238 | However many requests pass between giving a template its list and applying it, the job is asked for exactly that list and shows it if and only if the edit is clean; always, for distinct names on a tidy pipeline. |
| Templates.TemplatesNeverReachJobs | backend/src/pipeline-templates/pipeline-templates.service.ts:67-119 | No template request changes any job's stages. |
| PipelineAnswers.CreateJobAnswer | backend/src/jobs/jobs.service.ts:42-60 | 400 exactly for a salary range the wrong way round, else a draft of the organization. |
| PipelineAnswers.PublishAnswer | backend/src/jobs/jobs.service.ts:245-272 | Succeeds exactly for the organization's own draft with a stage; which refusal gets which error; only this job's status changes. |
| PipelineAnswers.CloseAnswer | backend/src/jobs/jobs.service.ts:278-293 | Succeeds exactly for the organization's own published job; likewise. |
| PipelineAnswers.ArchiveAnswer | backend/src/jobs/jobs.service.ts:302-314 | Succeeds exactly for the organization's own job not yet archived; likewise. |
| PipelineAnswers.ReplaceStagesAnswer | backend/src/jobs/jobs.service.ts:190-198 | Another organization's job is 404 and untouched, the own job gets the edit. |
| PipelineAnswers.ApplyTemplateAnswer | backend/src/jobs/jobs.service.ts:203-238 | 404 for the job first, then 422 for the template, then the edit to whatever names the template's listing reads. |
| PipelineAnswers.CreateTemplateAnswer | backend/src/pipeline-templates/pipeline-templates.service.ts:20-33 | A template row of the organization with the name given. |
| PipelineAnswers.UpdateTemplateAnswer | backend/src/pipeline-templates/pipeline-templates.service.ts:67-104 | 404 exactly for another organization's template; the name as asked or as it was; every other template as it was. |
| PipelineAnswers.RemoveTemplateAnswer | backend/src/pipeline-templates/pipeline-templates.service.ts:111-120 | 404 exactly for another organization's template; its rows are gone, all other rows and templates are as they were. |
| PipelineAnswers.CreateAnswer | backend/src/applications/applications.service.ts:97-144 | In every reachable state: succeeds exactly for a published job of an active organization, with the CV asked for or a primary one of the candidate's, and no active application there; each refusal's error; the new row starts in a stage of the job with the least order. |
| PipelineAnswers.WithdrawAnswer | backend/src/applications/applications.service.ts:177-191 | Succeeds exactly for the candidate's own active application, which is then withdrawn and otherwise as it was. |
| PipelineAnswers.ScreenAnswer | backend/src/applications/applications.service.ts:329-411 | In every reachable state: 404, 409 and 422 each exactly when due; a reject leaves the reason given in the row, the audit entry and the notification; a pass moves one order up in the job with its history entry. |
| PipelineAnswers.DecideAnswer | backend/src/applications/applications.service.ts:420-481 | In every reachable state: the same for a decision; a hire writes the status and its audit entry and notifies nobody. |
| PipelineAnswers.ApplicationTellsStory | backend/src/applications/applications.service.ts:177-481 | Over every run an application is withdrawn exactly by a successful request of its own candidate, hired exactly by a successful decision of its organization, and rejected with a reason exactly by a successful screening or decision with that reason. |
| Common.OrderBy | backend/src/jobs/jobs.service.ts:174-183 | The selected rows, each once, in ascending order of their sort key. |
| PipelineStore.FindRows | backend/src/jobs/jobs.service.ts:174-183 | Some listing of one owner's rows by ascending order: all of them, each once. |
| PipelineStore.Store.CreateJob | backend/src/jobs/jobs.service.ts:42-60 | A new draft job, or 400 for a salary range the wrong way round; whole new state. |
| PipelineStore.Store.IndexByName | backend/src/jobs/jobs.service.ts:330-333 | The name-to-row map holds, for every name in use, one row of that name. |
| PipelineStore.Store.PlaceStages | backend/src/jobs/jobs.service.ts:352-365 | The write loop is placing the names one after another. |
| PipelineStore.Store.SetStages | backend/src/jobs/jobs.service.ts:328-372 | The diff with its loops over the name-to-row map computes exactly the specified edit, refuses exactly when a dropped row is in use, and returns a listing of the result. |
| PipelineStore.Store.ReplaceStages | backend/src/jobs/jobs.service.ts:190-198 | 404 for another organization's job, else the edit. |
| PipelineStore.Store.ApplyTemplate | backend/src/jobs/jobs.service.ts:203-238 | 404, 422, or the edit to the template's names in order. |
| PipelineStore.Store.Publish | backend/src/jobs/jobs.service.ts:245-272 | Publishes a draft with stages; 404, 409, 422 otherwise. |
| PipelineStore.Store.Close | backend/src/jobs/jobs.service.ts:278-293 | Closes a published job; 404, 409 otherwise. |
| PipelineStore.Store.Archive | backend/src/jobs/jobs.service.ts:302-314 | Archives any job not archived; 404, 409 otherwise. |
| PipelineStore.Store.CreateTemplate | backend/src/pipeline-templates/pipeline-templates.service.ts:20-33 | Creates the template and one row per name. |
| PipelineStore.Store.UpdateTemplate | backend/src/pipeline-templates/pipeline-templates.service.ts:67-104 | Renames and, when stages are given, deletes and recreates its rows. |
| PipelineStore.Store.RemoveTemplate | backend/src/pipeline-templates/pipeline-templates.service.ts:111-120 | Removes the template with its rows. |
| PipelineStore.Store.ResolveCvId | backend/src/applications/applications.service.ts:488-513 | The requested CV if it is the candidate's own, without a request one of their primary CVs, nothing otherwise. |
| PipelineStore.Store.FindFirstStage | backend/src/applications/applications.service.ts:115-118 | A stage of the job with the least order, if it has any. |
| PipelineStore.Store.Create | backend/src/applications/applications.service.ts:97-144 | Creates the application, with the CV the request resolves to, in a first stage of a published job of an active organization; each refusal in the order the service checks. |
| PipelineStore.Store.Withdraw | backend/src/applications/applications.service.ts:177-191 | Withdraws the candidate's own active application. |
| PipelineStore.Store.Screen | backend/src/applications/applications.service.ts:329-411 | REJECT writes status, reason, audit entry and notification; PASS moves to a row one order up and appends history, or 422. |
| PipelineStore.Store.Decide | backend/src/applications/applications.service.ts:420-481 | HIRE or REJECT with its audit entry, and the notification on REJECT only. |
| PipelineStore.Store.GetStageHistoryForJob | backend/src/applications/applications.service.ts:285-323 | The batched lookup returns, entry by entry, what joining each history row on its own gives. |
| PipelineStore.JoinShowsHistory | backend/src/applications/applications.service.ts:285-323 | What the history endpoint shows, in every reachable state: one item per entry of the application, consecutive items linked, and the last one's toStage the application's current stage. |
| Paging.PagesConserveRows | backend/src/applications/applications.service.ts:208-222 | For any page size, pages 1..ceil(total/size) put together are the list. |
| Paging.RowIsOnItsPage | backend/src/applications/applications.service.ts:208-222 | A row is shown on a page at a place if and only if its index says so: on exactly one page, once. |
| Hiring.StepRefines | backend/src/offers/offers.service.ts:188-199 | One request: the lazy system and the system that expires offers the moment the clock passes give the same answer and stay related. |
| Hiring.LazyRefinesEager | backend/src/offers/offers.service.ts:46-199 | Every run of offer, onboarding and pipeline requests gives the same answers in both systems. |
| Hiring.RawCountAgrees | backend/src/offers/offers.service.ts:97-128 | The rows a filter by stored status selects agree between the two, and so does their count, if and only if of answered offers or with no overdue offer left unread. |
| Lifecycle.StepOffers | backend/src/offers/offers.service.ts:46-199 | Everything a request may do to an offer: nothing, expire it when overdue, or answer it while open; a new offer is for a hired application and sent now. |
| Lifecycle.StepBoard | backend/src/onboarding/onboarding.service.ts:46-201 | Everything a request may do to checklists, tasks and documents. |
| Lifecycle.StepValid | backend/src/onboarding/onboarding.service.ts:46-201 | Every request keeps the chain sound, respondedAt set exactly for accepted and declined offers, within their deadline. |
| Lifecycle.DocumentTracesToHire | backend/src/onboarding/onboarding.service.ts:160-201 | In every reachable state a document leads to its task, one checklist, an offer accepted in time, and a hired application with exactly one application.hired entry. |
| Lifecycle.NothingUndone | backend/src/offers/offers.service.ts:158-199 | No later step, over any further run, undoes a hire, an answered or expired offer, a checklist, a completed task or a document. |
| HiringAnswers.CreateOfferAnswer | backend/src/offers/offers.service.ts:46-92 | Which refusal gets which error, in the service's order, and the sent offer a success adds. |
| HiringAnswers.OfferForJobAnswer | backend/src/offers/offers.service.ts:130-142 | The organization is answered exactly for its own application's offer, brought up to now, and nothing else changes. |
| HiringAnswers.OfferMineAnswer | backend/src/offers/offers.service.ts:147-151 | The same for the candidate. |
| HiringAnswers.RespondAnswer | backend/src/offers/offers.service.ts:158-184 | Succeeds exactly for the candidate's own offer, still sent and not past its deadline; accepting leaves it ACCEPTED, declining DECLINED, answered now, with every other column kept; each refusal's error. |
| HiringAnswers.ListForOrgAnswer | backend/src/offers/offers.service.ts:97-128 | The page holds the listed offers of its place, brought up to now and stored so; all others are stored as they were. |
| HiringAnswers.CreateChecklistAnswer | backend/src/onboarding/onboarding.service.ts:46-89 | Succeeds exactly for an accepted offer without a checklist; each refusal's error. |
| HiringAnswers.ChecklistCreated | backend/src/onboarding/onboarding.service.ts:46-89 | The checklist and one open task per task asked for, by name and required flag; nothing else. |
| HiringAnswers.ChecklistAnswers | backend/src/onboarding/onboarding.service.ts:91-158 | Both views are answered exactly for an offer one may see that has a checklist. |
| HiringAnswers.AddTaskAnswer | backend/src/onboarding/onboarding.service.ts:101-122 | One open task more on that checklist, or 404. |
| HiringAnswers.CompleteTaskAnswer | backend/src/onboarding/onboarding.service.ts:126-151 | Completes, now, exactly a task of that checklist, or 404. |
| HiringAnswers.UploadDocumentAnswer | backend/src/onboarding/onboarding.service.ts:160-201 | 400 exactly without a file of at most 5242880 bytes, then 404, else one document of the candidate on a task of the candidate's own checklist. |
| HiringAnswers.DetailRows | backend/src/onboarding/onboarding.service.ts:221-238 | Row by row which tasks and documents an answer about a checklist holds. |
| HiringAnswers.OfferTellsStory | backend/src/offers/offers.service.ts:158-184 | Over every run an offer is ACCEPTED exactly if a request of its candidate to accept it succeeded, and DECLINED exactly if one to decline it did. |
| HiringAnswers.TaskTellsStory | backend/src/onboarding/onboarding.service.ts:126-151 | Over every run a task is complete exactly if a request completed it. |
| HiringStore.FindOffers | backend/src/offers/offers.service.ts:97-115 | Some listing of an organization's offers, latest first. |
| HiringStore.Desk.ExpireIfNeeded | backend/src/offers/offers.service.ts:188-199 | Flips a sent offer past its deadline, nothing else. |
| HiringStore.Desk.GetForJob | backend/src/offers/offers.service.ts:130-142 | The organization's view of an offer, expired first if due. |
| HiringStore.Desk.GetMine | backend/src/offers/offers.service.ts:147-151 | The candidate's view of an offer, expired first if due. |
| HiringStore.Desk.Create | backend/src/offers/offers.service.ts:46-92 | One offer per hired application, with a deadline in the future. |
| HiringStore.Desk.Respond | backend/src/offers/offers.service.ts:158-184 | Accepts or declines an offer that is still sent after expiry was applied. |
| HiringStore.Desk.ExpirePage | backend/src/offers/offers.service.ts:116-128 | expireIfNeeded on each row of a page: exactly those rows are settled, and returned in order. |
| HiringStore.Desk.ListForOrg | backend/src/offers/offers.service.ts:97-128 | A page of the unfiltered list; only its rows are expired. |
| HiringStore.Desk.RequireChecklist | backend/src/onboarding/onboarding.service.ts:203-212 | The checklist of an offer with its tasks and their documents, or 404. |
| HiringStore.Desk.CreateChecklist | backend/src/onboarding/onboarding.service.ts:46-89 | One checklist per accepted offer, answered with its first tasks. |
| HiringStore.Desk.ChecklistForJob | backend/src/onboarding/onboarding.service.ts:91-99 | The organization's view of a checklist, tasks and documents included. |
| HiringStore.Desk.ChecklistMine | backend/src/onboarding/onboarding.service.ts:155-158 | The candidate's view of a checklist, tasks and documents included. |
| HiringStore.Desk.AddTask | backend/src/onboarding/onboarding.service.ts:101-122 | Adds an open task to the offer's checklist and answers with the whole checklist. |
| HiringStore.Desk.CompleteTask | backend/src/onboarding/onboarding.service.ts:126-151 | Completes a task of that checklist, again if asked again, and answers with the whole checklist. |
| HiringStore.Desk.UploadDocument | backend/src/onboarding/onboarding.service.ts:160-201 | Size checks first, then one document on a task of the candidate's own checklist. |
| Interviews.StepRows | backend/src/interviews/interviews.service.ts:86-184 | Everything a request may do to interview rows: open one, or move one to a new slot and link it. |
| Interviews.EffectChained | backend/src/interviews/interviews.service.ts:160-184 | Rescheduling keeps the links sound: RESCHEDULED exactly when linked, to a later row of the same application, organization and panel, and no two rows share a successor. |
| Interviews.ReachableChained | backend/src/interviews/interviews.service.ts:86-184 | So over every run. |
| Interviews.ChainEnds | backend/src/interviews/interviews.service.ts:137-184 | From any interview the links end, in a SCHEDULED row of the same application, organization and panel. |
| Interviews.ChainsAreLines | backend/src/interviews/interviews.service.ts:137-184 | Two interviews share a tip if and only if one is reached from the other: chains are disjoint lines. |
| Interviews.SlotsConserved | backend/src/interviews/interviews.service.ts:86-184 | The SCHEDULED interviews of an application number exactly the successful schedule calls made for it. |
| Interviews.StepDistance | backend/src/interviews/interviews.service.ts:137-184 | A step lengthens the way from an interview to its tip by one exactly when it reschedules that tip, and the new slot is then the tip. |
| Interviews.DistanceCountsReschedules | backend/src/interviews/interviews.service.ts:137-184 | Over any run the tip is as many links away as the chain was later rescheduled. |
| Interviews.StepEvaluations | backend/src/interviews/interviews.service.ts:251-291 | Every evaluation belongs to a panel member of an existing interview, has valid scores, and is never changed. |
| Interviews.RunEvaluations | backend/src/interviews/interviews.service.ts:251-291 | So over every run: evaluations stay valid, and none is ever changed or removed. |
| InterviewAnswers.ScheduleAnswer | backend/src/interviews/interviews.service.ts:86-132 | 404, 409 and 422 each exactly when due; the new interview's columns, and one notification for each interviewer in order. |
| InterviewAnswers.RescheduleAnswer | backend/src/interviews/interviews.service.ts:137-184 | 404 and 409 each exactly when due; the new slot's columns, the mode asked for or the old one, the old row linked to it, and every other row as it was. |
| InterviewAnswers.SubmitEvaluationAnswer | backend/src/interviews/interviews.service.ts:251-291 | 403, 400 and 409 each exactly when due, or the scores as given stored for this interviewer. |
| InterviewAnswers.ScoresAreMarks | backend/src/interviews/interviews.service.ts:321-331 | The accepted scores are exactly 1, 2, 3, 4 and 5. |
| InterviewAnswers.EvaluationTellsStory | backend/src/interviews/interviews.service.ts:251-331 | Over every run the stored evaluations are exactly those successfully submitted, and every stored score is one of 1, 2, 3, 4 and 5. |
| InterviewStore.Panel.RequireOrgMembers | backend/src/interviews/interviews.service.ts:337-352 | Accepts exactly when every interviewer holds a role at the organization. |
| InterviewStore.Panel.Schedule | backend/src/interviews/interviews.service.ts:86-132 | A new SCHEDULED interview with its panel, and one notification per interviewer. |
| InterviewStore.Panel.Reschedule | backend/src/interviews/interviews.service.ts:137-184 | A new slot with the copied panel, and the old row relinked to it. |
| InterviewStore.Panel.ValidateScores | backend/src/interviews/interviews.service.ts:321-331 | Accepts exactly the maps whose scores are all whole numbers from 1 to 5. |
| InterviewStore.Panel.SubmitEvaluation | backend/src/interviews/interviews.service.ts:251-291 | 403, 400, 409, or one evaluation for this panel member. |
| Organizations.RemovalLeavesOwner | backend/src/organizations/organizations.service.ts:360-397 | Because role rows are unique, removing a member when two owner rows exist leaves an owner. |
| Organizations.StepSound | backend/src/organizations/organizations.service.ts:360-482 | Every request keeps role rows unique and every organization owned. |
| Organizations.EveryOrganizationIsOwned | backend/src/organizations/organizations.service.ts:40-79 | In every reachable state, whatever acceptances and removals happened. |
| Organizations.TimePasses | backend/src/organizations/organizations.service.ts:262-287 | Uniqueness of open invitations survives the clock. |
| Organizations.ReachableInvitations | backend/src/organizations/organizations.service.ts:262-482 | In every reachable state, now and at every later instant, at most one invitation per organization, email and role is open, and each was committed at most once, exactly if accepted. |
| Organizations.CommitGrantsOnce | backend/src/organizations/organizations.service.ts:405-482 | A committed acceptance leaves exactly one matching role row and was never committed before, under any interleaving. |
| Organizations.CommittableMeans | backend/src/organizations/organizations.service.ts:405-430 | An invitation is committable if and only if some acceptance commits it now: one already read, or one read and claimed at this instant. |
| Organizations.TwoCommittableOnlyIfOneLingers | backend/src/organizations/organizations.service.ts:405-430 | In every reachable state, of two committable invitations with one key at least one expires at this instant, or has expired with an acceptance already read. |
| Organizations.InviteDuplicatesOnlyLingering | backend/src/organizations/organizations.service.ts:262-287 | An invitation that goes out is committable, and joins another committable one with its key if and only if an unaccepted one of that key expires at this instant or has expired with an acceptance already read. |
| Organizations.StepReview | backend/src/organizations/organizations.service.ts:83-131 | What a request may do to an organization's status: approve or reject a pending one, otherwise nothing; a new one is pending. |
| Organizations.ReviewedOnce | backend/src/organizations/organizations.service.ts:83-131 | Over every run an organization is reviewed at most once, its status is that decision, and the audit log holds one entry per decision, saying so. |
| Organizations.ReachableStaffOnly | backend/src/organizations/organizations.service.ts:227-305 | Every invitation is for an approved organization and a staff role, and no run gives anyone the Candidate or Super Admin role of an organization. |
| OrganizationAnswers.RegisterAnswer | backend/src/organizations/organizations.service.ts:40-79 | 409 exactly for a taken address; else the account, the pending organization and its owner row. |
| OrganizationAnswers.ReviewAnswer | backend/src/organizations/organizations.service.ts:83-131 | 404 and 409 each exactly when due; approval leaves ACTIVE, rejection REJECTED, each with its audit entry. |
| OrganizationAnswers.RemoveMemberAnswer | backend/src/organizations/organizations.service.ts:360-397 | Succeeds exactly if the organization exists, the target is another than the actor and a member, and somebody else is an owner if the target is one; then no row of the target's is left there and every other row is as it was; each refusal's error. |
| OrganizationAnswers.InviteAnswer | backend/src/organizations/organizations.service.ts:227-305 | Succeeds exactly for an active organization, a staff role, an address that does not hold it and has no open invitation to it; each refusal's error; the new invitation. |
| OrganizationAnswers.CancelAnswer | backend/src/organizations/organizations.service.ts:342-356 | Deletes exactly an open invitation of that organization; 404 otherwise. |
| OrganizationAnswers.ReadInvitationAnswer | backend/src/organizations/organizations.service.ts:405-425 | The read passes exactly for an unaccepted invitation no later than its deadline. |
| OrganizationAnswers.ClaimAnswer | backend/src/organizations/organizations.service.ts:426-482 | Commits exactly if the invitation is still unaccepted and the account exists or can be made; then the account holds the invitation's role and nothing else is given; otherwise nothing is written. |
| OrganizationAnswers.RoleTellsStory | backend/src/organizations/organizations.service.ts:40-482 | Over every run a user holds a role at an organization exactly if the last request to give or take it gave it: registering the organization or committing an invitation, and no removal since. |
| OrganizationStore.PutGroups | backend/src/organizations/organizations.service.ts:180-209 | Adding one row to the grouped members keeps one entry per user with all roles in order. |
| OrganizationStore.FindGrants | backend/src/organizations/organizations.service.ts:180-209 | An organization's role rows, all of them, oldest first. |
| OrganizationStore.Directory.RegisterOrganization | backend/src/organizations/organizations.service.ts:40-79 | Account, pending organization and owner row, or 409. |
| OrganizationStore.Directory.Review | backend/src/organizations/organizations.service.ts:83-131 | Approves or rejects a pending organization, with its audit entry and, for a rejection, the reason; 404, 409 otherwise. |
| OrganizationStore.Directory.InviteStaff | backend/src/organizations/organizations.service.ts:227-305 | A new invitation, or each refusal in the order the service checks. |
| OrganizationStore.Directory.CancelInvitation | backend/src/organizations/organizations.service.ts:342-356 | Deletes an open invitation of the organization. |
| OrganizationStore.Directory.AcceptRead | backend/src/organizations/organizations.service.ts:405-425 | The read before the transaction. |
| OrganizationStore.Directory.AcceptTransaction | backend/src/organizations/organizations.service.ts:426-482 | The guarded claim, account and role row; a lost claim or missing credentials leaves everything as it was. |
| OrganizationStore.Directory.AcceptInvitation | backend/src/organizations/organizations.service.ts:405-482 | Undisturbed, the read then the transaction. |
| OrganizationStore.Directory.RemoveMember | backend/src/organizations/organizations.service.ts:360-397 | Deletes the member's rows unless the actor is the target, there are none, or the last owner would go. |
| OrganizationStore.Directory.ListMembers | backend/src/organizations/organizations.service.ts:180-209 | One entry per member, holding all that member's roles in order. |
| Sessions.StepEffect | backend/src/auth/auth.service.ts:255-376 | Everything one database statement may do to refresh tokens and to rotations in flight. |
| Sessions.StepSound | backend/src/auth/auth.service.ts:272-376 | Every statement keeps: one successor per token, successors only of revoked tokens of the same lineage and user, and a lineage's live token and rotation exclusive. |
| Sessions.OneSessionPerLineage | backend/src/auth/auth.service.ts:272-376 | Under every interleaving of any number of processes, unrevoked tokens plus claims not yet issued of a login lineage are at most one. |
| Sessions.OneSuccessor | backend/src/auth/auth.service.ts:308-376 | A token has at most one successor, and only once revoked. |
| Sessions.RevocationIsFinal | backend/src/auth/auth.service.ts:308-341 | Over any run rows are only ever revoked; revokedAt is neither cleared nor rewritten. |
| Sessions.ResetKillsTokens | backend/src/auth/auth.service.ts:205-220 | Every token of the user that exists when the bulk revoke runs stays dead. |
| Sessions.ResetEndsLineage | backend/src/auth/auth.service.ts:205-220 | A session of the user never has an unrevoked token again, in any continuation, if and only if none of its rotations was in flight at the bulk revoke. |
| Sessions.StepLoggedOut | backend/src/auth/auth.service.ts:255-376 | Once a user has no unrevoked token, no login past its password check and no rotation in flight, every statement but a new login of theirs keeps it so. |
| Sessions.ResetForcesLogin | backend/src/auth/auth.service.ts:205-220 | After the bulk revoke the user has no unrevoked token until their next login, in any continuation, if and only if no login of theirs had passed its password check and no rotation of theirs was in flight. |
| Sessions.StepTickets | backend/src/auth/auth.service.ts:224-253 | Every statement keeps: one winner or one effect per verification token, of its own purpose, and every verification token an existing user's. |
| Sessions.TicketsWorkOnce | backend/src/auth/auth.service.ts:161-253 | Under every interleaving a verification token has at most one effect, the one its purpose names. |
| Deadlines.FindStarts | backend/src/auth/auth.service.ts:308-317 | A rotation starts exactly for an existing, unrevoked token that is not past its deadline. |
| Deadlines.RotatedInTime | backend/src/auth/auth.service.ts:308-327 | In every run a token being rotated was read, unrevoked, no later than its own deadline. |
| Deadlines.SucceededInTime | backend/src/auth/auth.service.ts:308-376 | In every run a token with a successor was read so. |
| Deadlines.FindTicketStarts | backend/src/auth/auth.service.ts:224-253 | A verification starts exactly for an existing, unused ticket of the purpose asked for that is not past its deadline. |
| Deadlines.EffectInTime | backend/src/auth/auth.service.ts:161-253 | In every run a verified email or a written password goes back to such a read of its ticket. |
| Deadlines.LogoutEndsLineage | backend/src/auth/auth.service.ts:333-341 | Logging out ends the session for good if and only if the presented token was its only unrevoked one and no rotation of it was in flight. |
| Deadlines.RevokedBy | backend/src/auth/auth.service.ts:205-341 | A token's row changes only by being revoked, now, and only by its winning claim, its logout or its user's bulk revoke. |
| Accounts.TokensNeedPassword | backend/src/auth/auth.service.ts:255-376 | In every run every token, rotated or not, belongs to a user whose password, as it then was, some login gave. |
| Accounts.AccountTellsStory | backend/src/auth/auth.service.ts:102-220 | In every run a user's password is the one registration or a reset set last, and the email is verified exactly if a ticket of the user marked it. |
| Accounts.CarriesWhatWasAsked | backend/src/auth/auth.service.ts:205-220 | The password a reset is about to write is the one that came with its ticket. |
| Accounts.SwitchNeedsMembership | backend/src/auth/auth.service.ts:283-299 | A switch to an organization issues a token, in any run, only after a lookup that found the token's user a member there. |
| AuthStore.AuthService.FindRefreshToken | backend/src/auth/auth.service.ts:308-317 | Finds an unrevoked, unexpired token. |
| AuthStore.AuthService.RevokeIfUnrevoked | backend/src/auth/auth.service.ts:318-326 | The guarded update: wins exactly if the row is still unrevoked. |
| AuthStore.AuthService.ResolveOrg | backend/src/auth/auth.service.ts:283-299 | Passes exactly if no organization is named or the user is a member of it. |
| AuthStore.AuthService.IssueSuccessor | backend/src/auth/auth.service.ts:343-376 | The successor row of a claimed token. |
| AuthStore.AuthService.Login | backend/src/auth/auth.service.ts:255-270 | A new lineage for a right password, 401 otherwise. |
| AuthStore.AuthService.ClaimRefreshToken | backend/src/auth/auth.service.ts:308-327 | Undisturbed: wins exactly the valid tokens, and otherwise changes nothing. |
| AuthStore.AuthService.Refresh | backend/src/auth/auth.service.ts:272-275 | Undisturbed: one valid token in, its one successor out; otherwise 401 and no change. |
| AuthStore.AuthService.SwitchOrg | backend/src/auth/auth.service.ts:283-299 | Undisturbed: as refresh, except that naming an organization the user is not in spends the token and issues none. |
| AuthStore.AuthService.Logout | backend/src/auth/auth.service.ts:333-341 | Revokes the presented token if it is live. |
| AuthStore.AuthService.ClaimToken | backend/src/auth/auth.service.ts:224-253 | Undisturbed: spends exactly a valid ticket of the purpose asked for. |
| AuthStore.AuthService.VerifyEmail | backend/src/auth/auth.service.ts:161-170 | Verifies the ticket's user. |
| AuthStore.AuthService.ResetPassword | backend/src/auth/auth.service.ts:205-220 | Spends the ticket, writes the password, and leaves no unrevoked token of the user. |
| SingleFlight.StepInv | frontend/lib/api.ts:46-80 | Every event of client, network or server keeps the one request, its process on the server and the cookie consistent. |
| SingleFlight.NeverLogsItselfOut | frontend/lib/api.ts:46-80 | In every run where nobody else presents this session's unrevoked token, nobody resets its user and that token does not expire: at most one refresh in flight, all waiting calls wait for the same one, every presented token was unrevoked, every refresh succeeded, no call was turned away. Replays of spent tokens, and any age of the session, are included. |
| Calls.CallTellsStory | frontend/lib/api.ts:72-80 | In every run the state of a call says which of its fetches were made and answered, and how its refresh ended. |
| Calls.DoneWasAnswered | frontend/lib/api.ts:72-80 | A call ends with a status only if that status answered a fetch of it. |
| Calls.FetchedTwice | frontend/lib/api.ts:46-80 | A call is fetched exactly twice if and only if its first fetch was answered 401 on a retried path and the refresh it awaited brought a token. |
| Calls.DeliveryOutcome | frontend/lib/api.ts:51-68 | After a refresh is delivered with a token, that token is in memory and in the cookie; without one both are as they were; nobody waits for it any more. |
| Calls.TokenComesFromRefresh | frontend/lib/api.ts:51-68 | Of the modelled events only a refresh delivered with a token changes the access token, to that token. |
| Calls.MountOutcome | frontend/lib/auth-context.tsx:44-65 | The silent refresh on page load succeeds exactly if its refresh brings a token. |
| ApiClient.Client.Request | frontend/lib/api.ts:72-73 | The first fetch of a call. |
| ApiClient.Client.RefreshAccessToken | frontend/lib/api.ts:51-68 | Starts a request only if none is out; the caller waits for whichever is. |
| ApiClient.Client.Respond | frontend/lib/api.ts:72-80 | A 401 on a first fetch of a retryable path refreshes; any other response is final. |
| ApiClient.Client.ResumeCalls | frontend/lib/api.ts:51-68 | Every call awaiting a request resumes with that request's outcome, no other call moves. |
| ApiClient.Client.Settle | frontend/lib/api.ts:53-65 | Stores the new token, clears the promise, and resumes every waiting call with the same result. |
| ApiClient.FetchesAtMostTwice | frontend/lib/api.ts:72-80 | Whatever happens around it, a call is fetched at most twice. |
| Counts.GroupsTotal | backend/src/analytics/analytics.service.ts:120-133 | Grouping loses no row. |
| Counts.SumOfCounts | backend/src/analytics/analytics.service.ts:120-133 | Exact counts summed over distinct keys give all rows if and only if every row's key is among them. |
| Counts.ToCountsByKey | backend/src/analytics/analytics.service.ts:120-133 | Every status has its exact row count, absent ones 0, and the total is the number of rows and the sum of the counts. |
| Counts.PlatformIsSumOfOrganizations | backend/src/analytics/analytics.service.ts:28-69 | The platform's count of a status is the sum of all organizations' counts. |
| Counts.PlanCountsSum | backend/src/analytics/analytics.service.ts:102-118 | Per-plan counts sum to all subscriptions if and only if every subscription's plan was read and has a non-empty key. |
| Counts.SubscriptionsByPlan | backend/src/analytics/analytics.service.ts:102-118 | Every plan shows its own subscriptions; the total equals their sum exactly under that condition, and so always when every subscription references a plan and no plan key is empty. |
| Witnesses.StrandedApplicant | frontend/app/(org)/org/jobs/[id]/applications/[appId]/page.tsx:53-54 | A run after which a pipeline does not read the last request for it, the page does not call an applicant's stage final and PASS answers 422. |
| Witnesses.UnreadOfferIsMiscounted | backend/src/analytics/analytics.service.ts:80-87 | A run after which the stored and the effective counts of SENT and of EXPIRED offers differ. |
| Witnesses.RotationSurvivesReset | backend/src/auth/auth.service.ts:205-220 | A run with a rotation in flight at the bulk revoke, and a continuation in which its session is live again. |
| Witnesses.LoginSurvivesReset | backend/src/auth/auth.service.ts:205-220 | A run with no rotation in flight in which a login with the old password gets its token after the reset. |
| Witnesses.SecondTabTurnsAway | frontend/lib/api.ts:46-80 | A run in which another presenter spends the session's unrevoked token first, and a call of the client is turned away. |
| Witnesses.InvitedTwiceAtExpiry | backend/src/organizations/organizations.service.ts:262-287 | A run in which a second invitation goes out at the instant the first one expires and is still acceptable. |
| Witnesses.AcceptedTwiceAfterExpiry | backend/src/organizations/organizations.service.ts:405-482 | A run in which an invitation read in time is accepted after it expired and was replaced, and so is its replacement. |

## Left out

- HTTP, cookies, validation plumbing, permission guards, throttling and logging; the preconditions validation
  guarantees (non-empty stage and task lists, page and size at least 1) appear in `Possible` and `requires`.
- A missing organization in the session: always 404 before anything else happens, for every service.
- Statement-level interleaving of the services whose writes are not guarded.
- SingleFlight.NeverLogsItselfOut: speaks of one client. Two tabs share the cookie and not `refreshPromise`, and one can
  turn the other's calls away (`SecondTabTurnsAway`). It also does not model responses that are lost in transit; a lost response may spend the
  token without delivering its successor, and no client could avoid that.
- Text and numeric fields of jobs, offers and tasks that no rule reads, job update, publishedAt and
  closedAt, and the public job search.
- Uploading CVs and choosing the primary one: the CV table may change in any way between requests.
- The order of tasks in a checklist's answer, and documents' file names and times.
- Access tokens: only which call holds one; their claims, the default organization a login picks, and the
  client's setting it at login and clearing it at logout or after a failed page load (frontend/lib/auth-context.tsx:59-89)
  are not modelled.
- History timestamps: history is kept in the order it was written.
- Audit entries other than those of hiring, rejecting and organization review, and the notification text. A notification
  sent right after a commit is part of the same step.
- Selecting a plan and its limits, talent pools, universities, candidate profiles, uploads and storage: these would add only
  simple members.
- COMPLETED and CANCELLED interviews and SUSPENDED organizations: no code in the repository sets them.
- The filtered variants of the lists, apart from the exact condition under which a status filter on offers agrees.
- Evaluations are keyed by interview and interviewer in place of the panel row's own key; panel rows are the sequence of
  interviewers of an interview.
