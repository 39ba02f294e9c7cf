# A verified model of listnun's stateful parts

listnun is a multi-tenant mailing-list manager. This project models, in Dafny,
the parts of it that hold state, interleave or rewrite, and proves what they
promise. `dafny verify dfyconfig.toml` checks everything.

Every handler and loop that changes state is a method over a class or over
local variables, and is proved against a specification function. What the
program promises is then proved about those functions, and, where requests
interleave, about step systems whose steps are single reads and writes and whose
runs are arbitrary traces (`After(..., trace) == Some(w)` says that the trace is
possible and ends in `w`).

## The parts

**List validation with Scrub.** `ScrubModel` has the tables, `ScrubBatching` the
chunking and aggregation, `ScrubReconcile` what a finished job does to the
tables, `ScrubStore` the handlers as methods of a class, `ScrubSubmission` what a
submission leaves behind. `ScrubProtocol` is the step system of one job: the
submitting request, every callback's request and every reconcile move one
database access at a time, in any order. `ScrubRelease` proves when the job row
goes, `ScrubConfluence` that concurrent reconciles amount to one.

**The campaign gate and the unsubscribe rule.** `Campaigns` has the campaign
handlers, the automatic pause and the start of a validation. `CampaignGate` runs
them step by step around one validation job; `UnsubscribeRule` runs them to see
whether what is sent always lets its reader unsubscribe, and `CampaignRuns` what
requests can do to a status. `UnsubscribeTag` recognises the template tag and
relates it to link tracking.

**Settings and caches.** `TenantSettings` has the settings, what each cache
builds from them and how a save decides what is stale; `SettingsSave` the part of
a save that cleans names, identifiers and passwords; `TenantCaches` the four
caches that hold their lock while they build, and the end of a save;
`CacheCoherence` their interleaving with saves. `TtlCache` has the two caches that
load outside the lock.

**Crash-safe and terminating loops.** `Upgrade` is the migration runner,
`OptinResend` and `OptinExclusion` the bulk opt-in resend, `TxMessages` and
`TxSend` transactional sending and resending.

**Link tracking.** `LinkTracking` is the rewriting of campaign HTML as a
left-to-right scan; `CampaignTracking` the pixels and validation around it.

`Wrappers`, `Text`, `Maps` and `Picking` are small helpers; `Picking` says what it
means to be the sequence of those elements of another one that a condition picks.

## What is assumed

- Scrub's history of a batch is fixed, a job's rows can be read and written,
  identifiers are not reused, and Scrub's callbacks follow the rules named in `ScrubProtocol.Rules`.
  The safety results hold under `AnyOrder`, which assumes nothing of them; the
  release results need that a terminal status does not regress; convergence
  needs that a batch's callbacks come after its pending write and repeat its
  terminal status.
- Clocks, generated identifiers, remote services, template rendering and query
  failures are parameters with fixed answers.
- Migrations absorb re-runs and interruptions (`Upgrade.Absorbing`).
- The coherence of the caches assumes that one tenant's saves do not overlap, or
  that none is written over settings it has not read;
  `CacheCoherence.OverlappingSavesGoStale` shows that the program, which assures
  neither, can go stale.

## Where the code does less than one would expect

Each is proved with a run that shows it, and, where there is one, with the exact
condition under which the code does keep the property.

- **The campaign gate opens before the job row is deleted.** The gate looks for a
  job with status `processing` (`queries/scrub.sql:15-20`), but the callback that
  finds every chunk terminal writes `completed` before the reconcile even starts
  (`cmd/scrub_batch.go:278-293`). From then until the row is deleted campaigns on
  the list can be started. `CampaignGate.GateOpensWhenDone` says exactly when,
  `CampaignGate.GateOpensBeforeRelease` gives a run; `CampaignGate.GateHolds` is
  what holds while the job is processing.
- **A start request checked before the job row was inserted** can be written
  after the pause: `CampaignGate.EarlyStartSlipsThrough`. `EarlyStartExactly`: this
  takes a request in flight at the insertion, and any such request will do.
- **The pending write can land on a terminal callback.** `cmd/scrub_batch.go:95`
  sets the row to `pending` after the call to Scrub returns. A callback that was
  faster is overwritten, and the job then stays until another terminal callback
  for that chunk comes: `ScrubRelease.EarlyCallbackStrandsJob`, `WaitsUntilHeard`,
  `AnotherCallbackReleases`; `ScrubRelease.ReleaseExact` is the condition.
- **An edit can take the unsubscribe link out of a scheduled campaign.** When the
  edit clears the template, the check looks at the template loaded with the old
  campaign, while sending uses the default template (`cmd/campaigns.go:447-454`,
  `queries/campaigns.sql:191`). `UnsubscribeRule.EditCoveredExactly` is the exact
  condition; over runs the rule holds if and only if the default template has a
  tag or no template has one (`AlwaysCovered`, `SometimesUncovered`).
- **Forgetting the two-step policy while a load is in flight** can leave the old
  value for up to 30 seconds: `TtlCache.ForgetMeetsLoad`. `ForgetExactly`: it does
  in some run if and only if a load has read a version that is no longer stored.
- **Which versions are recorded can depend on crashes**, though what has been run
  does not: `Upgrade.RecordedMayDiffer`. `Upgrade.RecordExactly` is the condition.
- **A tenant's only enabled server cannot be found by its own name**
  (`cmd/init.go:737-740`): `SettingsSave.NamesFindServers`.
- **Two servers with different names can be refused as duplicates**, exactly when
  one is named like the other with the prefix: `SettingsSave.ServerNamesApart`.
- **A cancelled or finished campaign can be paused by the sending pipeline**, whose
  write looks at nothing: `CampaignRuns.SenderReopens`. No request can reopen one:
  `CampaignRuns.ClosedStaysClosed`.
- **Applying a campaign's tracking twice** changes nothing exactly when it has no
  pixels: `CampaignTracking.ApplyTwice`.

## Model

| member | source | states |
|---|---|---|
| ScrubBatching.ChunkEmails | internal/scrub/batching.go:9-22 | the loop returns the chunks of the specification |
| ScrubBatching.ChunksCover | internal/scrub/batching.go:9-22 | for any list the chunks concatenate in order to it, none is empty or over the size, only the last is short, and their number is the least that suffices |
| ScrubBatching.AggregateBatches | internal/scrub/batching.go:31-41 | the counts and sums are those of the rows read, and it is done if and only if the completed are as many as planned |
| ScrubBatching.TotalsExact | internal/scrub/batching.go:31-41 | the totals count the completed and failed rows and sum submitted, validated and invalid over all rows |
| ScrubBatching.DoneMeansAllTerminal | internal/scrub/batching.go:24-41 | with no more rows than planned, done says that all planned rows were read and all are completed or failed, and conversely |
| ScrubReconcile.ClassifyHistoryResults | cmd/scrub_batch.go:300-309 | valid records go to one list, all others to the other, in order |
| ScrubReconcile.WithVerdictExact | cmd/scrub_batch.go:300-309 | each list has the addresses of the records with its verdict, in order, once a record, and no other |
| ScrubReconcile.CountsAddUp | cmd/scrub_batch.go:442-475 | deliverable and undeliverable counts sum to the history records read, for any listing |
| ScrubReconcile.CollectPermutation | cmd/scrub_batch.go:442-459 | the order in which rows are listed does not change what is collected |
| ScrubReconcile.ReconcileEffectsExact | cmd/scrub_batch.go:442-475 | exactly which verdicts, subscriptions and summaries change: addresses in a completed chunk's history, undeliverable winning, only the job's lists unsubscribed, failed chunks without effect, everything else as before |
| ScrubStore.Store.SubmitScrubBatch | cmd/scrub_batch.go:54-114 | the new state of every table for each of the outcomes: not configured, refused, accepted |
| ScrubStore.Store.SubmitScrubListValidation | cmd/scrub_batch.go:125-151 | the loop over chunks with its cleanup ends in the state of the specification |
| ScrubStore.BatchKeepsValid | cmd/scrub_batch.go:54-114 | a submission reuses no identifier and its row refers to a job that is there; the handlers keep the same |
| ScrubStore.Store.ScrubBatchWebhook | cmd/scrub_batch.go:175-262 | an unreadable payload, a missing batch identifier, an unknown batch, unreadable settings and a bad signature are each refused without effect, another event is acknowledged without effect; otherwise the row takes the figures, and what follows for a job's chunk and for a standalone batch |
| ScrubStore.Store.UpdateScrubJobProgress | cmd/scrub_batch.go:267-294 | a missing job or a failed listing changes nothing; otherwise the job row has the totals of the rows read, is completed if the finished chunks are as many as planned and processing if not, and a reconcile is started exactly then |
| ScrubStore.RowsExact | queries/scrub.sql:15-20 | the rows listed for a job are those that refer to it, each with its own figures and status |
| ScrubStore.Store.ApplyScrubResults | cmd/scrub_batch.go:330-360 | the early exits skip only writes without effect |
| ScrubStore.ApplyShortcuts | cmd/scrub_batch.go:330-360 | why: tagging nobody, unsubscribing from no list or nobody changes no table |
| ScrubStore.Store.ReconcileScrubBatch | cmd/scrub_batch.go:369-408 | a standalone batch's row goes on every path, and the tables change only if settings and history can be read |
| ScrubStore.Store.ReconcileScrubJob | cmd/scrub_batch.go:417-476 | the job and its chunk rows go on every exit path; the tables become those of the specification or stay |
| ScrubSubmission.SubmissionAllOrNothing | cmd/scrub_batch.go:54-151 | under the guards: success leaves one job row and exactly the planned chunk rows whose e-mails concatenate to the list's; failure leaves every row as it was and a proper prefix of the list accepted; every chunk is non-empty and within the cap |
| ScrubSubmission.SubmissionBillsAccepted | cmd/scrub_batch.go:54-151 | in both cases usage grows by exactly what Scrub accepted, no other counter moves, and success is that Scrub took every chunk |
| ScrubSubmission.UnguardedSubmissionStrands | cmd/scrub_batch.go:54-151 | the submission by itself leaves a job row without chunks if and only if one of its caller's guards would have refused: Scrub not configured, or no addresses |
| ScrubProtocol.NoEarlyReconcile | cmd/scrub_batch.go:267-294 | in every reachable state, with any callbacks at any time, a reconcile was started only by a listing of exactly the planned number of rows, all terminal, and an empty listing is never done |
| ScrubProtocol.ProgressIsWritten | cmd/scrub_batch.go:224-229 | a callback's step writes its figures to its row, terminal or not, if the row is still there, and nothing else |
| ScrubProtocol.TotalsAreWritten | cmd/scrub_batch.go:267-294 | the step after the listing writes the totals of the rows read to the job row, if that is still there, and starts a reconcile if and only if all planned chunks are finished |
| ScrubProtocol.BillsAccepted | cmd/scrub_batch.go:85-114 | in every interleaving the usage counter has taken what Scrub has accepted, but for the one chunk being recorded |
| ScrubProtocol.RunStepsBounded | cmd/scrub_batch.go:417-476 | each step of a reconcile strictly lowers a bound on the steps it has left and moves no other |
| ScrubProtocol.RunCanStep | cmd/scrub_batch.go:417-476 | a reconcile that is not finished can always take its next step |
| ScrubRelease.QuiescentRelease | cmd/scrub_batch.go:417-476 | with nothing in flight a job row that is still there has a chunk whose row is not terminal, so unreadable settings, a disabled Scrub, history errors and failed chunks all release the list |
| ScrubRelease.ReleaseExact | cmd/scrub_batch.go:85-114 | at rest, when terminal statuses do not regress, the job row is gone if and only if every chunk's terminal callback was processed and no row that is still there lost its terminal status to the pending write |
| ScrubRelease.OrderedRelease | cmd/scrub_batch.go:231-234 | the same without that condition when callbacks come after the pending write |
| ScrubRelease.EarlyCallbackStrandsJob | cmd/scrub_batch.go:85-98 | a run that comes to rest with every chunk heard from and the job still there, processing |
| ScrubRelease.WaitsUntilHeard | cmd/scrub_batch.go:267-294 | whatever happens next, a job at rest with a chunk that is not terminal stays as long as no terminal callback for that chunk is applied |
| ScrubRelease.AnotherCallbackReleases | cmd/scrub_batch.go:267-294 | and from the end of that run another terminal callback releases the list |
| ScrubConfluence.ReconcilesConverge | cmd/scrub_batch.go:417-476 | any number of reconciles, under every interleaving of their writes and the deletion, leave the tables of one uninterrupted reconcile, or untouched if none listed the rows |
| ScrubConfluence.LateRunChangesNothing | cmd/scrub_batch.go:417-440 | a run that lists after the deletion changes nothing at any step |
| ScrubConfluence.AnyNumberOfReconcilesIsOne | cmd/scrub_batch.go:289-293 | with settings readable and Scrub configured, any number of runs from one on is one run |
| Campaigns.App.CheckScrubJobOnCampaign | cmd/campaigns.go:1149-1179 | blocked if and only if Scrub is enabled with URL, key and integration, and some list whose lookup succeeds has a processing job of the campaign's tenant |
| Campaigns.App.UpdateCampaignStatus | cmd/campaigns.go:495-553 | accepted if and only if the transition is allowed and, for a start, body or own template has a tag and no list is blocked; a campaign with a send date told to run becomes scheduled, any other gets the status asked for, and nothing else changes but the pause reason, kept by a pause and cleared otherwise; the reasons for refusal |
| Campaigns.App.UpdateCampaign | cmd/campaigns.go:405-466 | accepted if and only if the campaign is a draft, paused or scheduled, the fields are valid and a scheduled one keeps a tag in its body or the template looked at; the new row field by field |
| Campaigns.App.PauseCampaignsForRiskySubscriber | cmd/scrub_validation.go:46-68 | exactly the running campaigns of the tenant on the lists become paused, with the reason unless they have one; no other changes |
| CampaignRuns.DatedNeedsScheduler | queries/campaigns.sql:460-469 | over all runs of requests, edits and pauses in which the scheduler does not start it, a campaign with a send date is never running |
| CampaignRuns.RequestThenScheduler | queries/campaigns.sql:189-213 | told to run it is scheduled, and then the scheduler makes it run |
| CampaignRuns.ClosedStaysClosed | internal/core/campaigns.go:279-305 | over all runs, from a cancelled or finished campaign on, no request, edit, automatic pause or scheduler makes it running, scheduled, paused or a draft, and a finished one stays finished |
| CampaignRuns.SenderReopens | internal/manager/pipe.go:209-218 | the sending pipeline's own write can: a send that ends with too many errors pauses a campaign cancelled meanwhile |
| Campaigns.App.ScrubList | cmd/settings.go:770-813 | each refusal if and only if its guard says so, a failing lookup of the active job included, and then without effect; success submits and pauses |
| CampaignGate.GateHolds | cmd/campaigns.go:511-531 | over all runs with split handlers: while the job is processing, what is sent to the list was scheduled at the lookup, or had passed its check before the insertion, or was put on the list by an edit |
| CampaignGate.ScrubListPauses | cmd/settings.go:799-810 | a ScrubList with no request in flight leaves nothing being sent to the list and every schedule as it was |
| CampaignGate.GateHoldsForAtomicHandlers | cmd/settings.go:786-812 | from its return on, while the job is processing, what is sent to the list was scheduled at the return or has been put on the list since |
| CampaignGate.GateOpensWhenDone | queries/scrub.sql:15-20 | after a progress write the list is still gated if and only if the chunks are not done or another job is processing, and the row is there in any case |
| CampaignGate.GateOpensBeforeRelease | cmd/scrub_batch.go:278-293 | for any list, with its chunks planned by the submission, a run from its validation to a last progress write over completed chunks, after which a draft on the list is being sent while the job row is there |
| CampaignGate.EarlyStartSlipsThrough | cmd/campaigns.go:511-531 | for any campaign on the list with a request in flight at the insertion, a run in which it is sent to the list during the validation, neither scheduled nor put on the list by an edit |
| CampaignGate.EarlyStartExactly | cmd/campaigns.go:511-531 | such a run exists if and only if a campaign on the list has a request in flight when the job row is inserted |
| UnsubscribeRule.EditCoveredExactly | cmd/campaigns.go:447-480 | an accepted edit keeps a scheduled campaign unsubscribable if and only if it does not clear the template with neither body nor default template having a tag |
| UnsubscribeRule.AlwaysCovered | cmd/campaigns.go:511-520 | over all runs every scheduled or running campaign is unsubscribable, if the default template has a tag or no template has |
| UnsubscribeRule.SometimesUncovered | queries/campaigns.sql:189-197 | otherwise a run ends with a scheduled campaign that is not |
| UnsubscribeTag.TrackKeepsUnsubscribe | models/campaigns.go:286-306 | tracking a body's links leaves it with an unsubscribe tag exactly when it had one, for every body |
| UnsubscribeTag.HasTagExact | models/campaigns.go:286-306 | a text has an unsubscribe tag if and only if the tag expression, spelled out letter by letter, matches somewhere in it |
| LinkTracking.MatchesExpression | models/campaign_tracking.go:24-27 | the scanner finds a link exactly where the expression, spelled out letter by letter, matches, the letter that folds onto s included, and it matches in one way only |
| LinkTracking.TracksEveryLink | models/campaign_tracking.go:92-102 | after the rewriting every link the scanner finds is marked or has mismatched quotes, for every body |
| LinkTracking.TrackFixes | models/campaign_tracking.go:92-102 | a body is left alone if and only if it has no link to mark |
| LinkTracking.TrackIdempotent | models/campaign_tracking.go:92-102 | rewriting twice is rewriting once, for every string |
| LinkTracking.TrackOnlyInserts | models/campaign_tracking.go:92-102 | the output is the body with marks put in front of quotes and nothing else changed |
| LinkTracking.UntrackTrack | models/campaign_tracking.go:92-102 | deleting the marks gives back the body if and only if it had none of its own |
| CampaignTracking.Apply | models/campaign_tracking.go:92-114 | with links off and no pixels the body; with links on the body with marks put in front of quotes, no link left to mark, and the body itself if it had none; with pixels that and then one image a pixel, in order, and nothing else |
| CampaignTracking.ApplyTwice | models/campaign_tracking.go:92-114 | applying again changes nothing if and only if there are no pixels |
| CampaignTracking.Normalized | models/campaign_tracking.go:61-73 | the loop with its seen map returns the specified pixels and keeps the switches |
| CampaignTracking.NormalizedKeeps | models/campaign_tracking.go:60-73 | exactly the trimmed non-empty pixels are kept, once each, and later ones never disturb the order of earlier ones |
| CampaignTracking.NormalizedFixes | models/campaign_tracking.go:60-73 | a list is left alone if and only if it is trimmed, non-empty and free of repetitions |
| CampaignTracking.NormalizedTwice | models/campaign_tracking.go:60-73 | normalising twice is normalising once |
| CampaignTracking.Validate | models/campaign_tracking.go:75-87 | accepted if and only if there are at most ten and all are pixel URLs of at most 2048 bytes; otherwise the first bad one is named |
| CampaignTracking.PixelURLExact | models/campaign_tracking.go:20-22 | a pixel URL is one of at most 2048 bytes with the expression's scheme and at least one character after it, none of them blank, quote or angle bracket |
| CampaignTracking.ByteLengthExact | models/campaign_tracking.go:82 | the length is that of the UTF-8 encoding |
| CampaignTracking.UTF8Decodes | models/campaign_tracking.go:82 | whose bytes decode to the character, the first one telling how many there are |
| CampaignTracking.PixelStaysQuoted | models/campaign_tracking.go:20-22 | a validated pixel cannot end its attribute: no quote, blank or angle bracket between the opening and the closing quote |
| TenantSettings.InitSMTPMessengers | cmd/init.go:699-745 | first a messenger under the reserved name with all enabled servers, then, unless there is just one, the named ones; an error if and only if an enabled server is bad |
| TenantSettings.EnabledServersInOrder | cmd/init.go:699-745 | the enabled servers, in order, and no other |
| TenantSettings.NamedMessengersInOrder | cmd/init.go:699-745 | one messenger for each enabled server with a name, in order, under that name and with that server alone |
| TenantSettings.ByNameExact | cmd/tenant_messenger.go:78-99 | a name finds the last messenger that has it, and nothing if none has |
| TenantSettings.SaveEffectSound | cmd/settings.go:369-383 | for all settings: a cache whose build a save changes is evicted or a restart follows, a platform-managed Scrub configuration included |
| TenantSettings.SaveEffectExact | cmd/settings.go:463-512 | no flag is raised, and nothing follows a save, if and only if it changes nothing but the inactive cleanup |
| TenantSettings.SaveEffectOnlyAsNeeded | cmd/settings.go:463-512 | a restart is asked for if and only if something outside servers, uploads, sign-in and cleanup changes; otherwise a cache is evicted if and only if its own settings change |
| TenantSettings.StoredExact | cmd/settings.go:256-300 | what is stored is what was sent, but for a platform-managed Scrub configuration, which stays |
| TenantSettings.KeyEffectSound | cmd/settings.go:434-445 | the same soundness for a save by key, for every key |
| TenantSettings.KeyEffectOnlyAsNeeded | cmd/settings.go:434-445 | each key evicts its own cache, the cleanup nothing, and every other key asks for a restart |
| TenantCaches.TenantMessengers.GetMessenger | cmd/tenant_messenger.go:50-100 | the tenant's slot afterwards, other tenants' untouched, and the messenger of that name or its absence |
| TenantCaches.TenantMedia.Get | cmd/tenant_media.go:61-103 | a cached store is returned as it is; otherwise, with readable settings and provider filesystem or s3, a store with each setting read in its own place, which is kept; failing is exactly the other cases and keeps nothing; other tenants' slots untouched |
| TenantCaches.Auth.GetTenantOIDC | internal/auth/auth.go:170-220 | likewise for sign-in: provider, client, secret, roles and the redirect under the root URL as read; failing is exactly unreadable settings, sign-in switched off or a provider that does not answer |
| TenantCaches.TenantImporters.Get | cmd/tenant_importer.go:60-121 | likewise for the importer: block and allow list, Scrub and root URL as read |
| TenantCaches.SettingsApp.FinishUpdateSettings | cmd/settings.go:369-383 | the caches evicted and the restart asked for are those of the save's effect, whether or not campaigns are running |
| TenantCaches.SettingsApp.FinishUpdateSettingsByKey | cmd/settings.go:434-448 | likewise for a save by key |
| CacheCoherence.Coherent | cmd/settings.go:366-383 | over all interleavings of gets with one tenant's saves, if saves are serial or each is written only over the settings it read: with no save between its write and its last eviction and no restart due, every cache keeps, and every get returns, what the stored settings build now |
| CacheCoherence.RestartStartsOver | cmd/settings.go:532-552 | a restart empties every cache, leaves nothing due and keeps what is stored |
| CacheCoherence.OverlappingSavesGoStale | cmd/settings.go:122-126 | with saves that overlap and write over whatever is stored, a run ends with a stale cache and nothing due |
| SettingsSave.SaveBlocks | cmd/settings.go:128-309 | accepted if and only if names, servers, intervals and the role for new users are in order; then names are apart, every block is stored as sent but for name, trimmed host, a new identifier if it had none and a kept password, and the other settings as sent but for kept secrets; the reason for each refusal |
| SettingsSave.AcceptableExact | cmd/settings.go:128-309 | in order is: no name twice, none the reserved one, every postback named, one server enabled, every mailbox scanned once a minute at most, and a role if users are created on sign-in |
| SettingsSave.ServerNameExact | cmd/settings.go:141-146 | a server's name is empty if and only if the trimmed one sent is, and else has the prefix, added if missing, and a character for each one sent: the small letter, digit or dash, or a dash for any other |
| SettingsSave.ServerNamesApart | cmd/settings.go:141-156 | two servers come to one name if and only if their clean names agree or differ only in the prefix |
| SettingsSave.PostbackNameExact | cmd/settings.go:245 | a postback's name has, in order, the small letter, digit or dash for each character sent that is a letter, digit or dash, and no other |
| SettingsSave.NamesStable | cmd/settings.go:141-146 | cleaning a clean server or messenger name changes nothing |
| SettingsSave.PasswordsFollowIDs | cmd/settings.go:167-173 | a block sent with a blank password gets that of the stored block with its identifier, at whatever positions the two stand |
| SettingsSave.ReorderingKeepsPasswords | cmd/settings.go:152-173 | the order of the stored blocks does not matter |
| SettingsSave.SavingAgainChangesNothing | cmd/settings.go:128-309 | saving what was saved, with any passwords and secrets blanked, stores the same and is acceptable if and only if that was |
| SettingsSave.NamesFindServers | cmd/init.go:699-745 | with the names a save lets through, the reserved name finds all enabled servers, and an enabled server's own name finds that server alone, if and only if it is not the only enabled one |
| TtlCache.TwofaPolicy.Get | cmd/twofa_policy.go:28-48 | a fresh entry is served and kept; otherwise what is loaded is served and kept; an error serves false and keeps nothing |
| TtlCache.TenantReplies.Addresser | cmd/tenant_replies.go:65-82 | likewise, but an error is kept as no tracking |
| TtlCache.BoundedStaleness | cmd/twofa_policy.go:28-48 | under every interleaving a value served from the cache was the stored one later than the time-to-live plus its load's duration ago, and one that a loading get returns was stored since that get began |
| TtlCache.Expires | cmd/twofa_policy.go:28-33 | an entry is served until its time-to-live is over and not after |
| TtlCache.UndisturbedForget | cmd/twofa_policy.go:50-54 | if no load in flight has read a version that is no longer stored, all that is served after a forget, from the cache or by a loading get, was stored then or later |
| TtlCache.ForgetMeetsLoad | cmd/twofa_policy.go:35-54 | if one has, the run in which it ends puts that version back and serves it |
| TtlCache.ForgetExactly | cmd/twofa_policy.go:35-54 | an older version is served from the cache in some run after the forget if and only if such a load is in flight |
| TtlCache.SaveDisturbs | cmd/twofa_policy.go:35-54 | a save during a load is enough to get there |
| Upgrade.GetPendingMigrations | cmd/upgrade.go:173-190 | the loop returns the suffix from the first version above the last recorded one |
| Upgrade.PendingExactly | cmd/upgrade.go:179-187 | in an ascending list that suffix is exactly the versions above it |
| Upgrade.LessExact | cmd/upgrade.go:179-187 | versions are ordered by the first of major, minor and patch in which they differ |
| Upgrade.MigListAscends | cmd/upgrade.go:28-84 | this repository's list ascends |
| Upgrade.Database.Upgrade | cmd/upgrade.go:89-137 | an uninterrupted upgrade runs the pending migrations in order and records those that find a table |
| Upgrade.InOrderNext | cmd/upgrade.go:112-133 | running up to the next migration is running it on what the ones before left |
| Upgrade.RecordedInOrderExact | cmd/upgrade.go:120-132 | recorded are, in order, the versions of those migrations after which there is a table, and no other |
| Upgrade.CrashSafe | cmd/upgrade.go:112-133 | after any crashes and restarts: recorded versions ascend and have been run, one in-order run always comes to the same state, a finished upgrade has reached it, and then nothing is pending if and only if there is a table to record in |
| Upgrade.RecordIndependent | cmd/upgrade.go:112-133 | if the settings table is there once the first pending migration has run, or never, every recording upgrade that finishes, whatever crashes it took, has recorded the same versions: all pending ones or none |
| Upgrade.RecordedMayDiffer | cmd/upgrade.go:120-132 | otherwise, for any migrations and database, two finished runs reach the same database with different recorded versions |
| Upgrade.RecordExactly | cmd/upgrade.go:112-133 | that condition holds if and only if all finished recording upgrades record the same versions |
| Upgrade.OldestIsUndetermined | cmd/upgrade.go:120-132 | a fresh database whose first migration is older than the table does not meet it |
| OptinResend.Subscribers.ResendOptins | cmd/list_activity.go:174-194 | it terminates; each person tried was enabled, waiting and due at the start, is tried once and is marked with its time, and nobody else changes; with queries and marks succeeding they are all who were due; the count is of the sends that succeeded |
| OptinResend.MarkedAreNotDue | queries/lists.sql:170-180 | marking takes exactly the marked people out of the due ones |
| OptinResend.DueExact | queries/lists.sql:163-180 | the due are the enabled who wait to confirm, with neither a subscription nor a confirmation since the limit |
| OptinExclusion.SendsKeepTheirGap | cmd/list_activity.go:150-168 | over all runs resends of a tenant never overlap, and of two sends to one person the later is marked, and made, more than the gap after the earlier was marked |
| OptinExclusion.OverlapSendsTwice | cmd/list_activity.go:160-167 | without the exclusion a run sends to one person twice at once |
| TxMessages.ValidateTxMessage | cmd/tx.go:382-453 | the checks in their order accept exactly the valid requests and return the cleaned one; the reasons for refusal |
| TxMessages.ValidExact | cmd/tx.go:382-453 | valid is: each kind of addressee given in one form, exactly one kind given, identifiers only in default mode, every address acceptable, the messenger there |
| TxMessages.ValidatedExact | cmd/tx.go:382-453 | the cleaned request lists all addressees, each address as checked, has mode, sender and messenger filled in and everything else as sent |
| TxMessages.LabelExact | cmd/tx.go:247-249 | the label is a hash sign and the identifier in decimal |
| TxMessages.DigitsExact | cmd/tx.go:247-249 | an identifier is labelled with its decimal digits, without leading zeros |
| TxMessages.DecodeEncode | cmd/tx.go:34-47 | decoding a record as a request gives back its recipient and everything else but the attachments |
| TxMessages.ResendExactly | cmd/txlog.go:98-119 | a logged message can be sent again if and only if it has a template, names somebody acceptable and its messenger is registered, and then goes to that recipient alone with everything else unchanged |
| TxSend.Transactional.SendTx | cmd/tx.go:167-305 | for every request: a message is sent, and its entry queued, if and only if rendering works and the mode is external, or somebody is found, or nobody is and the mode is fallback; records and messages name who was found, or else the address asked for or the label of the identifier; subject and text are those rendered; it stops where a lookup, rendering or push fails, and ends with unknown subscribers if and only if it did not stop and somebody was missing in default mode; without a template every recipient's record is of a failure |
| TxSend.Accounting | cmd/tx.go:209-299 | the handled recipients are a prefix in order, each with its one entry and payload, the messages handed over are those of the queued in order |
| TxSend.EntriesExact | cmd/tx.go:200-207 | entries and returned identifiers are those of the records that could be written, in order |
| TxSend.QueuedIffHanded | cmd/tx.go:252-296 | with the log working, entries and returned identifiers follow the recipients, and an entry is queued if and only if a message carrying its row was handed to the manager |

## Left out

- HTTP binding, permissions, translated texts, the frontend and the activity log: plumbing without state of its own.
- Crypto and remote services (webhook signatures, OIDC discovery, SMTP, S3, captcha) are parameters with fixed answers.
- ScrubConfluence.ReconcilesConverge: assumes that callbacks come after the pending write and repeat a batch's terminal status; a repeated callback with another terminal status may change which chunks are reconciled.
- CampaignGate.GateHolds: lookups succeed and Scrub stays configured; the unsubscribe check and other lists' jobs, which only turn more requests down, are not part of its steps, and campaigns are not deleted.
- CampaignGate.GateHoldsForAtomicHandlers: holds while the job is processing and not until its row is deleted, because the code opens the gate in between.
- UnsubscribeRule.AlwaysCovered: a status request is one step; an edit of a draft between its check and its write is not modelled, and templates do not change.
- The sending pipeline's own status changes appear as steps that stop a campaign; its counters and per-subscriber progress are not modelled.
- TenantSettings.SaveEffectSound: an absent and an empty list are the same value here, where the code may tell them apart and evict once more.
- SettingsSave.SaveBlocks: from-addresses, the secrets of bounce services and captchas, the clean-up of upload extensions, domain lists and trusted URLs and the checks of the Scrub URL, captcha keys, cleanup and cron are not modelled.
- CacheCoherence.Coherent: the operator's pushes, which change the root URL or Scrub and rely on a restart, are not steps of it.
- TenantCaches.TenantMedia.Get: what the S3 client makes of its options, such as a default URL, is the client's.
- TtlCache.BoundedStaleness: one tenant at a time, since entries of different tenants do not touch.
- Upgrade.CrashSafe: the operator's grants that are applied again on every start are not modelled, and two upgrades do not run at once.
- OptinExclusion.SendsKeepTheirGap: the exclusion is one atomic step of the model, as the map operation behind it is.
- OptinResend.Subscribers.ResendOptins: one batch is a method of its own, and marks are given times rather than the database's clock.
- TxSend.Transactional.SendTx: rendering's effect on the request is given by an oracle, so nothing is said about each recipient's subject; a rendering that fails leaves the request as it was; merged headers, the brand block, attachment contents and the result recorded when a push times out are not modelled.
- TxMessages.DecodeEncode: template data is a map from field names to JSON texts.
- The delivery of webhooks, the segment compiler, the cleanup schedule, version checks and unsubscribe splitting would only add easy members.
