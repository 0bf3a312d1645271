# Verification of the publish pipeline

A Dafny model of the part of the Mixpost server that takes a scheduled post to the
social networks: the API writes that prepare posts, accounts and services, the scheduler
that claims due posts, the Redis queue, the workers that call the providers and settle
the `post_accounts` rows, and the Facebook import that supplies accounts.

`dafny verify dfyconfig.toml` checks everything.

## How it is organised

Code that changes tables or the queue step by step is modelled by methods over two
classes, `Tables.Database` (the Postgres tables) and `SchedulerLoop.JobQueue` (the Redis
list). Each method is proved against a function on table values, and what the code is for
is proved about those functions: `Outcomes`, `TickMeaning` and the lemmas at the end of the
API's modules say it in terms of rows, posts, accounts and queues alone.

`Pipeline` puts the same operations into one step system: any number of schedulers and
workers, every statement or network call between which others can come is a step of its
own, reads are READ COMMITTED (committed rows plus the transaction's own), and failed
statements, lost pushes, shutdowns and crashes are explicit steps. API writes happen at any
time; the one restriction is that a post is edited only while it has no live job.
`SchedulerLoop.TickIsRun`, `WorkerLoop.RoundIsRun` and `Handlers.RequestIsStep` tie the
methods to runs of that system. `Invariant` states what holds in every reachable state; `WorkerSteps`,
`CommitSteps`, `SchedulerSteps`, `ProcessSteps` and `ApiSteps` prove it step by step, `Reach`
over whole runs; `PostStates` reads it for one post; `Safety`,
`Lifecycle`, `Termination`, `Refusals`, `Silence`, `Deletion`, `Texts`, `Starvation`,
`Punctuality` and `Draining` draw the conclusions, and `Races`, `StrandedRun` and `ConcreteRuns` show where the guarantees end.

The history in a state (`Pipeline.History`) exists to state properties: calls and
acceptances per (post, account) since the last claim, lost jobs, and per claim the verdicts,
the accounts whose row was deleted (`gone`), those whose error was committed (`failed`), and
those gone when the last verdict was counted (`goneThen`). A running post is *late* when the
last change to its rows did not look at what it left: a settlement that another change
overtook between its count and its commit, or the deletion of an open row. No step reads
the history, except that the phase `Counted` remembers how many changes and which deletions
it had seen.

## Where the code does less than its documentation says

- README.md:155-157 says that success for all accounts publishes the post and any error
  fails it. Some posts are never finished: `Safety.DrainedRunsOnExactly` gives the exact
  condition for every claimed post, whatever was lost, overtaken or deleted. A post whose
  jobs are all gone is left running if and only if a lost job left its row behind or the post
  is late. `Races.SimultaneousSettlementsStrand` and `StrandedRun.StrandedPostIsReachable`
  show two workers that settle the last two rows at once and leave the post running for good,
  without any fault; `Races.DeletedAccountStrandsPost` and
  `ConcreteRuns.DeletionStrandsReachably` an account deletion that does.
- README.md:157 again: some posts are published although an account failed.
  `Safety.UnnoticedExactlyWhenDeleted` gives the exact condition: a complete post is failed if
  and only if some account whose error was committed still had its row at the count that
  decided. The account can be deleted before its error is recorded (`Races.DeletionHidesFailure`; by
  `Races.MarkPublishesExactly` a mark publishes exactly when its own row is gone and all
  others are posted) or after it (`Races.DeletionErasesFailure`); both are reached from
  empty tables (`ConcreteRuns.HiddenFailureIsReachable`,
  `ConcreteRuns.ErasedFailureIsReachable`).
- One claim can be finalized twice (`Races.DeletionFinalizesTwice`,
  `ConcreteRuns.TwoVerdictsAreReachable`): `Safety.SecondVerdictNeedsDeletedRow` says that a
  further verdict is one that meets a complete post, which takes the deletion of its own row.
- MIXPOST_GO_REWRITE_PLAN.md:128 asks that retries never post twice. They do:
  `Races.FailedCommitPostsTwice`, `StrandedRun.DoublePostIsReachable`. What holds is
  `Safety.AcceptancesAreAccountedFor`: one acceptance more than the attempts that ended
  without recording theirs, at most.
- README.md:146-150: the claim does not look at `scheduled_at` again, so a post moved to a
  later time after the scan is still claimed (`ConcreteRuns.EarlyClaimIsReachable`).
  `Punctuality.EarlyExactlyWhenRescheduled` says exactly when a claim is on time.

## Model

| member | source | states |
|---|---|---|
| Reach.StepKeepsInv | cmd/worker/main.go:66-265 | every step of a worker, scheduler, API call or fault keeps the invariant: no job exists twice, each row of a claimed post is pending exactly while its job is live or lost, counts in flight stay right about the rows they will commit, tallies and reads stay within bounds |
| Reach.RunKeepsInv | cmd/worker/main.go:66-265 | the invariant holds along every interleaved run |
| Safety.JobsAreConserved | cmd/scheduler/main.go:208-227 | each row of a claimed post has exactly one of: a live job, a lost job, a settled result; and never both a provider id and an error |
| Safety.PublishedIsNeverPremature | cmd/worker/main.go:228-264 | whenever a claimed post reads as published all its rows carry a provider id and no error, and no transaction about to commit that verdict would make it premature |
| Safety.DrainedRunsOnExactly | cmd/worker/main.go:228-265 | every claimed post without jobs, whatever was deleted, is left running exactly when a lost job left its row behind or the last change to its rows (an overtaken settlement, the deletion of an open row) did not look at what it left |
| Safety.UnnoticedExactlyWhenDeleted | cmd/worker/main.go:228-264 | a complete post is failed exactly when some account whose error was committed still had its row at the count that decided, and published exactly when each of them had lost it |
| Safety.DrainedOutcome | cmd/worker/main.go:228-265 | hence, with its rows in place, a drained post is failed, published or still running exactly according to whether a row has an error, a job was lost, or the last settlement was overtaken |
| Safety.LostJobStrandsPost | cmd/worker/main.go:103-112 | a lost push, requeue or mark keeps the post running for as long as the row of the job is there, whatever the other workers do and whatever happened to other rows |
| Safety.FinalizedAtMostOnce | cmd/worker/main.go:183-187 | every claimed post runs exactly until a verdict is committed; a settlement whose own row is still there always meets a running post; if no row of the post was deleted there is at most one verdict and `published_at` is set exactly by a published one |
| Safety.SecondVerdictNeedsDeletedRow | cmd/worker/main.go:228-264 | a verdict is a further one of its claim exactly when it meets a complete post, and that takes the deletion of its own row |
| Safety.TwoVerdictsCannotMeet | cmd/worker/main.go:228-243 | of two uncommitted settlements of one post, one decides nothing as long as the row of the other is there: it counted that row as pending |
| Safety.AttemptsAreBounded | cmd/worker/main.go:93-107 | queued and held jobs carry attempts 1 to 3 equal to the pops so far, and a claim makes at most three calls per account |
| Safety.AcceptancesAreAccountedFor | cmd/worker/main.go:154-187 | per claim and account the provider accepts at most once more than attempts ended unrecorded; a settled row is exact about it |
| Safety.ClaimsAreExclusive | cmd/scheduler/main.go:142-208 | with any number of stale scan lists a successful claim finds no job of the post anywhere and hands over its accounts once each in row order; a post without accounts fails in the same step |
| Safety.OnePusherPerPost | cmd/scheduler/main.go:212-227 | two schedulers never push for the same account of the same post |
| Safety.ContentRefusalsAreUnreachable | internal/providers/facebook_page.go:39-57 | a worker that reaches the call has trimmed non-empty text and a known provider, so only the token can still be refused, and no row ever records an unsupported provider |
| Lifecycle.StatusMovesForward | cmd/scheduler/main.go:150-199 | scheduler and worker steps move every post only from pending to running to published or failed, or from pending straight to failed, provided a worker that commits still finds the row of its job |
| Lifecycle.FinalizedOnceWhileRowsStay | cmd/worker/main.go:167-187 | over every run in which each commit still finds its own row no claim gets a second verdict, whatever other rows are deleted |
| Lifecycle.DeletedStaysAtRest | internal/httpserver/posts_handlers.go:264-277 | a soft-deleted post without jobs keeps its record over every run: it is neither claimed nor edited any more |
| Lifecycle.RestIsForever | cmd/worker/main.go:245-264 | a post without jobs that is not waiting to be claimed keeps status and `published_at` over every run in which nobody edits it: complete states are absorbing, and so is being stranded |
| Lifecycle.CompleteMeansAtRest | cmd/worker/main.go:228-265 | any job left of a published or failed post has lost its row; with its rows in place the post has no job left anywhere |
| Lifecycle.SerializedRunsFinish | cmd/worker/main.go:228-265 | if the settlements of one post never overlap, whatever those of other posts do, and none of its jobs is lost and none of its rows deleted, it is failed or published as its rows say once it is drained |
| Termination.WorkIsBounded | cmd/worker/main.go:74-113 | on every run the steps of workers and schedulers are bounded by the work present and what scans and claims add |
| Termination.PopsAreBounded | cmd/worker/main.go:93-107 | a claim of k accounts pays for at most 3k pops, retries included |
| Termination.BusyWorkerCanStep | cmd/worker/main.go:119-265 | a worker with a job can always take a step that is not a fault |
| Termination.StandstillMeansDrained | cmd/worker/main.go:66-117 | when workers and schedulers can only scan again or fail, no job of any post is left |
| Silence.RevokedAccountFallsSilent | cmd/worker/main.go:137-139 | once an account is unauthorized, and until it is re-authorized, only workers that had already read it can still call its provider, each once |
| Silence.OnlyUpdateOrImportReauthorizes | internal/httpserver/facebook_handlers.go:353-365 | no other account or service write makes it authorized again |
| Silence.CommittedRevocationSilences | cmd/worker/main.go:200-209 | from the commit of an unauthorized error on, and until someone re-authorizes the account, its provider is called at most once per worker that had read it before |
| Refusals.FinalErrorSettles | cmd/worker/main.go:96-112 | over every run, whatever others do in between, a worker whose job failed with any of the five final errors at any attempt, or with any error at the third, neither calls nor retries and, short of a fault of its own, goes on to the commit that leaves this error in the row |
| Refusals.FinalErrorSettlesSoon | cmd/worker/main.go:190-226 | that commit is its third step at the latest |
| Refusals.TransientErrorIsRetried | cmd/worker/main.go:96-107 | over every run, a worker whose job failed in a transient way below the third attempt records nothing: its next step pushes the next attempt in front of the queue, or loses it |
| Silence.ImportReauthorizes | internal/httpserver/facebook_handlers.go:353-365 | the account an import leaves for a page with an id and a token is no longer revoked, and a worker that pops a job for it reads on |
| Deletion.DeletedForGood | internal/httpserver/posts_handlers.go:264-277 | from the deletion of a post on, at every point of every run, no scan lists it, no claim starts it, and updating or deleting it is answered with not found |
| Texts.TextFollowsEdits | internal/httpserver/posts_handlers.go:388-412 | over every run the text published of a post for an account changes only by updates of that post, and is then what the last of them submitted |
| Draining.QuietWorkerDrains | cmd/worker/main.go:66-117 | as many undisturbed rounds as the queued jobs have attempts left empty the queue and settle the row of every job, whatever the providers answer |
| Silence.RevokedJobNeverCalls | cmd/worker/main.go:93-226 | over every run in which the account stays revoked, a worker that has popped a job for it makes no call and no retry: short of a fault of its own it reads, refuses and commits the error into the row, within four own steps; if the row is gone at the read it drops the job |
| Starvation.TickRemovesRivals | cmd/scheduler/main.go:94-129 | an error-free tick that leaves a due post waiting has claimed 200 posts scheduled no later |
| Starvation.NoStarvation | cmd/scheduler/main.go:94-104 | with r other claimable posts scheduled no later, a due post survives n error-free ticks only if 200 n <= r, whatever order ties take |
| Races.SimultaneousSettlementsStrand | cmd/worker/main.go:228-243 | from every state in which two workers write the last two open rows of a post, counting before committing leaves it running with all rows settled |
| Races.StrandedForever | cmd/worker/main.go:228-265 | such a post stays running over every continuation without an edit |
| StrandedRun.StrandedPostIsReachable | cmd/worker/main.go:228-243 | a fault-free run from empty tables reaches such a state with two accounts and two workers |
| Races.DeletedAccountStrandsPost | cmd/worker/main.go:129-133 | deleting the account of a post's last popped job leaves the post running with every remaining row settled |
| ConcreteRuns.DeletionStrandsReachably | cmd/worker/main.go:129-133 | a run from empty tables that ends like this |
| Races.DeletionHidesFailure | cmd/worker/main.go:211-223 | a mark that finds its row deleted publishes a post whose other rows were posted, even one without rows |
| ConcreteRuns.HiddenFailureIsReachable | cmd/worker/main.go:211-223 | a run from empty tables that publishes a post one of whose two accounts failed |
| Races.MarkPublishesExactly | cmd/worker/main.go:211-264 | the count of an error mark publishes exactly when the mark's own row is gone and every row left is posted |
| Races.DeletionErasesFailure | internal/httpserver/accounts_handlers.go:286-307 | an account whose error is already committed is deleted, the last open row is posted, and the post is published |
| ConcreteRuns.ErasedFailureIsReachable | internal/httpserver/accounts_handlers.go:286-307 | a run from empty tables that ends like this |
| Races.MarkWithoutRow | cmd/worker/main.go:256-263 | the mark does not look at the rows it changed: with every remaining row posted it finalizes, again if need be |
| ConcreteRuns.MarkWithoutRowIsReachable | cmd/worker/main.go:256-263 | a reachable state in which such a mark is about to publish |
| Races.DeletionFinalizesTwice | cmd/worker/main.go:228-264 | after a row deletion one claim can be finalized twice |
| ConcreteRuns.TwoVerdictsAreReachable | cmd/worker/main.go:228-264 | a run from empty tables with two verdicts for one claim |
| Races.UnheardCommitUndoesPublishing | cmd/worker/main.go:187-226 | were a commit that took effect reported as failed, the last attempt would fail a published post and leave id and error in its row |
| ConcreteRuns.UnheardCommitAtRealState | cmd/worker/main.go:93-112 | a state reached from empty tables, on the third attempt, in which that would happen |
| Punctuality.EarlyExactlyWhenRescheduled | cmd/scheduler/main.go:94-129 | over every run since a scan, a listed post nobody updated is on time with the schedule it was found with; an updated one is claimed early exactly when its last update stored no time or one still to come |
| Punctuality.ScheduleFollowsEdits | internal/httpserver/posts_handlers.go:201-211 | over every run a post is scheduled for what its last update said; nothing else moves it |
| Races.StaleScanClaimsEarly | cmd/scheduler/main.go:150-159 | from every state with a listed post and an update to a later time, the post is claimed before its time |
| ConcreteRuns.EarlyClaimIsReachable | cmd/scheduler/main.go:150-159 | a run from empty tables that claims a post before its time |
| Races.EditUnderLiveJobDuplicatesIt | internal/httpserver/posts_handlers.go:201-238 | rescheduling a post that still has a live job lets the next scan of a resting scheduler find it, and the claim makes a second job for the same row |
| Races.ClaimOverLiveJob | cmd/scheduler/main.go:150-189 | claiming a post with a live job always adds one job for the same row |
| ConcreteRuns.DuplicateJobFromReachable | internal/httpserver/posts_handlers.go:201-238 | such a state, reached from empty tables with one scheduler, and the second job |
| Races.AttemptIsAccepted | cmd/worker/main.go:119-165 | a popped job whose checks pass reaches acceptance by a fault-free run |
| Races.FailedCommitPostsTwice | cmd/worker/main.go:154-187 | an accepted post whose transaction fails can be retried and accepted again, whatever else is queued |
| StrandedRun.DoublePostIsReachable | cmd/worker/main.go:154-187 | a run from empty tables with one failed commit in which the provider accepts the same post of the same account twice |
| WorkerLoop.FinalizePostIfDone | cmd/worker/main.go:228-265 | the post row becomes what the counts over the current rows decide |
| WorkerLoop.SettlingTakesOneRow | cmd/worker/main.go:167-240 | settling a pending row lowers the pending count of its post by one and no other, and raises the failed count exactly for an error |
| WorkerLoop.ProcessPublishJob | cmd/worker/main.go:119-188 | tables and returned error for every combination of failing read, missing row, refusal, provider outcome, deletion of the account during the call, and failed commit |
| WorkerLoop.MarkAccountJobError | cmd/worker/main.go:190-226 | revocation, error, count and verdict take effect together or not at all |
| WorkerLoop.RecoverJob | cmd/worker/main.go:96-112 | permanent errors and the third failure are recorded, all others requeued at the front with the next attempt; what this is good for is WorkerLoop.RoundIsRun and what is proved of the step system |
| WorkerLoop.HandleJob | cmd/worker/main.go:93-113 | one job from attempt to settled, requeued or dropped |
| WorkerLoop.WorkOnce | cmd/worker/main.go:74-113 | one round takes the oldest job of the queue and handles it |
| WorkerLoop.RoundIsRun | cmd/worker/main.go:66-265 | a round leaves the tables and queue that some run of that worker in the step system leaves, in which nothing fails that did not fail in the round: without a fault no statement, commit or retry push fails, the worker never dies, and only the account of the job is deleted, if it was |
| Outcomes.AcceptedIsRecorded | cmd/worker/main.go:165-187 | after an accepted call the row of the job holds the id the provider gave and no error, every other row is as it was, and the post is complete if no row is pending, failed or published as the rows say |
| Outcomes.NothingToDo | cmd/worker/main.go:129-133 | an attempt that finds no row or no account changes nothing and reports no error |
| Outcomes.RefusedInOrder | cmd/worker/main.go:137-158 | before the call the account, the service, the text and the connector can refuse, in this order, each with its own error, and nothing is changed |
| Outcomes.OtherAnswersAreErrors | cmd/worker/main.go:154-187 | a rejected or unheard call and a failed commit change nothing and are the error of the attempt |
| Outcomes.DeletedMeanwhile | cmd/worker/main.go:167-181 | if the account is deleted during the call, an acceptance is not recorded and no error reported |
| Outcomes.FinalErrorIsRecorded | cmd/worker/main.go:190-226 | one of the five final errors at any attempt, and any error at the third, ends in exactly the row of the job, revokes exactly its account and only if it is the unauthorized one, decides the post by its rows, and leaves the queue as it was; a failed transaction changes nothing |
| Outcomes.TransientIsRetried | cmd/worker/main.go:96-107 | a transient error below the third attempt changes no table and puts the next attempt in front of the queue |
| Outcomes.FailedReadIsTransient | cmd/worker/main.go:129-152 | a failing read of the account or the text is a transient error |
| Outcomes.FailedServiceReadIsTransient | cmd/worker/main.go:346-378 | so is one of the service, which only facebook_page, twitter and bluesky have |
| Outcomes.NoRoundIsWasted | cmd/worker/main.go:74-113 | an undisturbed round ends with the row settled, or with the tables as they were and the next attempt queued |
| WorkerLoop.RunWorker | cmd/worker/main.go:66-117 | the loop with the manager the worker starts with is its rounds in turn |
| WorkerLoop.TurnsAreRun | cmd/worker/main.go:66-117 | any number of rounds is a run of that worker with the trouble of those rounds and no other |
| SchedulerLoop.JobQueue.BRPop | cmd/worker/main.go:74-81 | pops at the back, nothing from an empty queue |
| SchedulerLoop.EnqueuePost | cmd/scheduler/main.go:142-230 | claim, accounts in row order, one push each, and what is left behind by a failure at any point, also by a claim that took effect or a push that arrived although it reported an error |
| SchedulerLoop.PushedIsFifo | cmd/scheduler/main.go:212-227 | the pushed jobs stand in front of the old ones and are popped in account order |
| SchedulerLoop.ScanAndEnqueueDuePosts | cmd/scheduler/main.go:90-140 | one tick over the scanned posts, ending at the first error, with the reported numbers and a final stamp that may fail |
| SchedulerLoop.TickClaimsWhatItFound | cmd/scheduler/main.go:115-129 | after an error-free tick no scanned post is claimable, others are untouched and the queue grew by the reported number |
| TickMeaning.NothingEnqueued | cmd/scheduler/main.go:150-165 | a post that is not open is left alone without an error; a claim that is rolled back leaves everything as it was |
| TickMeaning.EmptyPostFails | cmd/scheduler/main.go:191-204 | an open post without rows becomes failed and complete and gets no job |
| TickMeaning.OpenPostIsEnqueued | cmd/scheduler/main.go:150-230 | an open post with rows starts running, and its accounts get first attempts in row order behind the jobs already queued, up to the push that fails; the number reported is that of the pushes that went well |
| TickMeaning.TickReports | cmd/scheduler/main.go:111-140 | a tick in which nothing fails pushes exactly the jobs of the open scanned posts, in scan order and row order, and reports their number and that of the open posts without rows |
| TickMeaning.ErrorEndsTick | cmd/scheduler/main.go:115-129 | an error at a post leaves what that post and those before it leave, with the counts so far, and no later post is looked at |
| TickMeaning.ScanListsDuePosts | cmd/scheduler/main.go:94-104 | a scan lists posts that are scheduled, pending, not deleted and due, each once, earliest first: all of them below 200, and at 200 none that is left out was scheduled before a listed one |
| SchedulerLoop.EnqueueIsRun | cmd/scheduler/main.go:142-230 | an enqueue, whatever fails in it, is a run of its scheduler leaving the same tables and queue; it goes on with the scan exactly if it saw no error |
| SchedulerLoop.TickIsRun | cmd/scheduler/main.go:90-140 | a whole tick, whatever fails in it, is a run of its scheduler from rest to rest |
| Tables.AccountsOfIsTheListing | cmd/scheduler/main.go:167-189 | the listing names exactly the accounts of the post's rows, each once |
| Tables.CountsMeaning | cmd/worker/main.go:231-239 | the two counts are positive exactly when a pending or failed row exists |
| Content.ExtractBody | cmd/worker/main.go:416-452 | any text is trimmed and non-empty, any failure is invalid content |
| Content.ExtractBodyMeaning | cmd/worker/main.go:416-452 | text t comes out exactly of content that carries a string trimming to t, as itself, as the body of an object, or as the body of the first element of a list of objects and nulls |
| Posts.SavePostRows | internal/httpserver/posts_handlers.go:362-386 | one fresh pending row per requested account and no other; other posts untouched |
| Posts.SavePostKeepsRowsOk | migrations/0001_init.up.sql:61-71 | no insert of a save can violate the (post, account) constraint or a foreign key |
| Posts.Dedup | internal/httpserver/posts_handlers.go:367-375 | same elements, each once |
| Posts.DedupKeepsFirstOrder | internal/httpserver/posts_handlers.go:367-375 | in the order of first occurrence |
| Posts.ReadBack | internal/httpserver/posts_handlers.go:282-317 | reading back lists the first occurrences of the request in request order |
| Posts.ReadBackIsFixedPoint | internal/httpserver/posts_handlers.go:282-317 | saving what was read back leaves the account list as it is |
| Posts.DeletionMarks | internal/httpserver/posts_handlers.go:264-277 | a deletion is accepted exactly for a stored post not yet deleted, marks it, and changes nothing else |
| Texts.SavesAccepted | internal/httpserver/posts_handlers.go:126-166 | creating and updating are accepted exactly for positive stored account ids and version accounts that are not negative, an update only of a post that is there undeleted; each refusal has its error |
| Texts.SavedPost | internal/httpserver/posts_handlers.go:193-238 | a created or updated post has the submitted status and times and pending rows for the submitted accounts in order; every other post keeps its record, rows and texts |
| Texts.ChosenVersionIsPublished | internal/httpserver/posts_handlers.go:388-412 | the text of a saved post for an account is the trimmed string carried by the first version submitted for it, or for want of one by the first original version |
| Texts.NothingToPublish | cmd/worker/main.go:387-414 | without such a version, or without content in it, there is no valid content |
| Texts.SaveKeepsOtherTexts | internal/httpserver/posts_handlers.go:388-412 | saving one post leaves the text of every other post for every account as it was |
| Posts.PublishTextRefinesSubmission | internal/httpserver/posts_handlers.go:388-412 | the text published for an account is that of the first submitted version for it, else of the first original one |
| Posts.ReplacePostAccounts | internal/httpserver/posts_handlers.go:362-386 | the delete-and-insert loop fails or stores exactly the first occurrences |
| Posts.ReplacePostVersions | internal/httpserver/posts_handlers.go:388-412 | the delete-and-insert loop fails or stores the submitted versions in order |
| Handlers.HandleCreatePost | internal/httpserver/posts_handlers.go:126-166 | a creation is refused exactly for an account id that is not positive or not stored or a negative version account, as a bad request, and then leaves no trace |
| Handlers.HandleUpdatePost | internal/httpserver/posts_handlers.go:193-243 | deleted and unknown posts are not found; otherwise refused as a creation is; a refused update leaves no trace |
| Handlers.RequestIsStep | internal/httpserver/accounts_handlers.go:73-307 | every write request on posts, services and accounts that is not refused is the step of the pipeline that stands for it and leaves the same tables, except for an edit of a post with live jobs; a refused one changes nothing |
| FacebookImport.UpsertFacebookPageAccount | internal/httpserver/facebook_handlers.go:326-368 | the account with the page's identity is replaced or a new one added |
| FacebookImport.ImportFacebookPages | internal/httpserver/facebook_handlers.go:300-324 | the loop computes the fold over the pages, with imported ids and skip labels in order |
| FacebookImport.ImportCountsEveryPage | internal/httpserver/facebook_handlers.go:300-324 | imported plus skipped is the number of pages |
| FacebookImport.ImportOverrides | internal/httpserver/facebook_handlers.go:353-365 | the accounts table becomes the old one overridden by the last importable page per id; ids, identities and uniqueness are kept |
| FacebookImport.ImportedAccountHoldsPage | internal/httpserver/facebook_handlers.go:326-368 | after an import exactly one account has the identity of a page with id and token; it is authorized and holds the trimmed name (or id), username, category and token of the last such page with that id |
| FacebookImport.ImportReports | internal/httpserver/facebook_handlers.go:300-324 | the two reported lists name each page in order: the account it was imported as, or its id, or for want of one its name, as skipped |
| FacebookImport.ImportTwice | internal/httpserver/facebook_handlers.go:300-368 | importing the same list again changes nothing |
| FacebookImport.ImportedAccountIsPublishable | internal/providers/facebook_page.go:39-68 | the connector never refuses an imported account before the call: valid text goes to its own page with its own page token and the API version of the service, else of the import, else the default |
| FacebookGraph.ListManagedPages | internal/providers/facebook_graph.go:181-239 | terminates on every link graph; on success returns the trimmed rows of the first min(20, chain length) responses in order, on failure the server's error |
| FacebookGraph.ListingIsUnique | internal/providers/facebook_graph.go:181-239 | that description leaves one answer only for each server and start |
| FacebookGraph.ChainIsUnique | internal/providers/facebook_graph.go:182-237 | there is one chain of responses, shorter walks are prefixes of longer ones |
| FacebookGraph.CompleteExactlyWhenNoLaterRows | internal/providers/facebook_graph.go:182-239 | a listing cut off after a prefix is complete exactly when no later response carries a row |
| FacebookGraph.RowsInOrder | internal/providers/facebook_graph.go:226-234 | the listing holds every row of every response visited, in order, each value in its own field with the spaces around it taken off, and nothing else |
| FacebookGraph.ListedPagesAreTrimmed | internal/providers/facebook_graph.go:226-234 | listed page ids are trimmed, so imports store no padded id |
| OAuthStates.StateStore.CreateOAuthState | internal/httpserver/facebook_handlers.go:437-459 | stores the record under the first of three drawn states that is free, or nothing |
| OAuthStates.StateStore.ConsumeOAuthState | internal/httpserver/facebook_handlers.go:461-511 | marks a pending record of that provider and lets it through unless it has expired; that this grants each state once is OAuthStates.GrantedExactlyOnce |
| OAuthStates.GrantedExactlyOnce | internal/httpserver/facebook_handlers.go:437-511 | over every request history a callback passes exactly when its state was issued to that provider, in time, and not asked for since; it gets the user and redirect of the issuing request |
| OAuthStates.StartIsIssuedFirstUntaken | internal/httpserver/facebook_handlers.go:437-459 | over every history a request to start is issued the first of three drawn tokens nobody was issued before, and none only if all three were |
| OAuthStates.RefusalsAreExact | internal/httpserver/facebook_handlers.go:468-505 | a callback is told that the state has expired exactly when only its ten minutes have run out, and that it is invalid exactly when there is no open state |
| OAuthStates.NoReplay | internal/httpserver/facebook_handlers.go:468-490 | after one callback passed, every later one with that state is invalid |
| ServiceRules.BindingsAreNormalized | internal/providers/service_rules.go:17-38 | bindings exist for known providers other than mastodon only, and name services as they are stored |
| ServiceRules.AcceptedConfigurationsHold | internal/providers/service_rules.go:40-82 | a configuration is accepted exactly if an active facebook or twitter service holds a client id and a secret and a facebook API version is of the form vN.N |
| Services.ReadinessMeaning | cmd/worker/main.go:346-385 | facebook_page and twitter require the services facebook and twitter, bluesky uses bluesky if it is there: what the API and the worker answer without it, with an inactive and with an active one |
| Services.OthersNeedNoService | internal/providers/service_rules.go:26-38 | every other provider needs no service and gets no configuration |
| Services.ServiceAnswers | internal/httpserver/services_handlers.go:63-212 | which service requests are refused, and with which error |
| Services.ReadinessGap | internal/httpserver/accounts_handlers.go:357-382 | worker readiness implies API readiness; the converse fails exactly for an inactive bluesky service |
| Services.FetchedConfigurationValidates | cmd/worker/main.go:346-385 | the configuration handed to the facebook or twitter connector holds both credentials and no malformed API version |
| Services.CreatedServiceIsFound | internal/httpserver/services_handlers.go:63-118 | a creation succeeds exactly for an acceptable form whose normalized name no lookup finds; afterwards lookups find it under that name and all others as before |
| Services.UpdatedServiceIsFound | internal/httpserver/services_handlers.go:120-189 | an update succeeds exactly for a stored service and an acceptable form whose name is its own or free; afterwards it is found under the new name, not under the old one, and all others as before |
| Services.DeletedServiceIsGone | internal/httpserver/services_handlers.go:191-212 | after a deletion the name is not found, others as before, and both the API and the worker report a provider that requires the service as not configured |
| Accounts.AccountAnswers | internal/httpserver/accounts_handlers.go:80-150 | which account requests are refused, and with which error |
| Accounts.AccountIsStored | internal/httpserver/accounts_handlers.go:80-168 | what is stored holds every value of the form, names and ids normalized, and no other account or service changes |
| Accounts.DeletionTakesAccountAndRows | internal/httpserver/accounts_handlers.go:286-307 | a deletion takes away the account and its rows, leaving every other account and row as it was |
| Accounts.CreatedAccountIsFound | internal/httpserver/accounts_handlers.go:73-168 | a creation succeeds exactly for an acceptable form, given the services, whose identity no lookup finds; afterwards the normalized account is found under it and all others as before |
| Accounts.UpdatedAccountIsFound | internal/httpserver/accounts_handlers.go:170-284 | an update succeeds exactly for a stored account and an acceptable form whose identity is its own or free; afterwards it is found under the new identity, not under the old one, and all others as before |
| Accounts.DeletedAccountIsGone | internal/httpserver/accounts_handlers.go:286-307 | a deletion takes the account out of the listing of every post, leaving the order, keeps every constraint and frees exactly that identity |
| Base.TrimMeaning | internal/providers/service_rules.go:84-86 | trimming takes off the blanks and control characters at both ends and nothing else |
| Base.NormalizeMeaning | internal/providers/service_rules.go:84-86 | a normalized name is the trimmed one with every capital letter made small |
| Registry.PerformKeepsOk | internal/httpserver/accounts_handlers.go:80-111 | every account or service write, import and revocation keeps names, configurations and identities in order |
| Registry.EveryRunKeepsOk | internal/providers/manager.go:30-37 | after any sequence of such writes to empty tables the default manager has a connector for every stored account |
| Providers.Manager.constructor | internal/providers/manager.go:22-28 | the index built by the loop |
| Providers.IndexFindsLast | internal/providers/manager.go:22-45 | a lookup finds the last connector registered under the name, or none |
| Providers.DefaultManagerCoversKnownProviders | internal/providers/manager.go:30-37 | the default manager serves exactly the names the API accepts |
| Providers.PageRequest | internal/providers/facebook_page.go:39-68 | nothing goes out for a page without text, page id or token; else the text, to that page, with the first of three tokens that is set, under the API version of service, account, token or default |
| Providers.StubRequest | internal/providers/stub_connectors.go:22-42 | a stub needs text and a token that is not flagged |
| Providers.UnknownProviderRequest | internal/providers/manager.go:39-45 | any other provider is refused as unsupported |
| Providers.OnlyTokenRefusalsRemain | internal/providers/facebook_page.go:39-57 | for accounts and texts that satisfy the write-time rules only the token can be refused before the call |
| Providers.ApiVersionIsNeverEmpty | internal/providers/facebook_page.go:59-64 | the API version in the URL is trimmed and non-empty |
| Providers.FirstNonEmptyString | internal/providers/facebook_page.go:148-155 | the trimmed first value that is not blank, or nothing if all are |

## Left out

- Commit with a lost answer: a worker's failed commit is one that was not applied; what a commit that did take effect but was reported as failed would do is in Races.UnheardCommitUndoesPublishing. A scheduler's claim with a lost answer is a case of SchedulerLoop.EnqueuePost and of the step system.
- Retries inside the Redis client: after a network error it sends a command again, so one LPUSH can be executed twice; each push here arrives once or not at all, and that no job exists twice rests on it.
- Row locks: steps never wait, so the step system has runs that locks would only delay; no proof relies on blocking.
- Edits of a post with live jobs: excluded from the step system; what they break is in Races.EditUnderLiveJobDuplicatesIt.
- Account and post writes in the step system are whole transactions; two API requests do not interleave.
- WorkerLoop.TurnsAreRun: the only disturbance in a round is the deletion of its account during the call; other interleavings are covered by the step system, not by the methods. The endless loop around a tick is not a method, and the one around a round runs for a given number of rounds.
- Posts and accounts in the handlers: decoding of the request, the transaction's own failures and the reading back of the response are left out.
- Time: one integer clock; `NOW()` inside a transaction is some value not later than the clock, and timeouts are fault steps. The clock may jump only by ticks.
- SQL, JSON and HTTP text: tables are maps, payloads are values. `LIMIT 1` without an order takes the lowest id, which uniqueness makes irrelevant. Queue payloads that do not decode are dropped by the worker and do not occur here.
- Strings: trimming and lower-casing are the ASCII part of Go's; error text is reduced to which error it is.
- Sequences: ids are handed out without gaps, except that Database.Rollback also returns the ids a failed request drew.
- Facebook calls: the Graph API answers with an id, one of the named errors or a transient error, or accepts unheard; URL and form encoding, error bodies and the token exchanges are left out.
- OAuth: opaque token generation, the authorization URL, and user deletion, which would remove records, are left out; the select-for-update makes a consume one step.
- Tags, media, metrics, audience, sessions, users, configuration, logging and health endpoints: no logic that bears on publishing.
