# FishFeed backend: a verified model

A Dafny 4.11 model of the parts of the FishFeed backend whose correctness spans several
functions or several concurrent workers, with proofs over all inputs, runs and
interleavings. `dafny verify dfyconfig.toml` checks everything.

**Subscriptions.** `Evidence`, `AccessRule` and `SubscriberParser` model the RevenueCat
subscriber parser: its passes over three dictionaries are methods with loops, and the
ownership map that later passes update is a class. They are proved against one declarative
rule that mentions no pass (`AccessRule.Accepts`, `AccessRule.Describes`): the parser accepts
exactly the customers the rule accepts and returns what the rule describes. `AccessTheorems`
then reasons about the rule: access decays with time, live evidence has one owner, one record
decides access, and iteration order matters only for ties between promotional grants.

**Reconciliation.** `Projection` models reading a proposal, applying it to a user row, the
downgrade and upgrade side effects and the AI-scan quota, in place on a row object and as
functions on row values. `ProjectionTheorems` proves that reconciliation reaches a fixpoint,
that every applied row shows its snapshot, and that product history only grows, over every
run. The fixpoint holds for a proposal applied long after it was read. `QuotaTheorems` gives
the exact account of the AI-scan quota over every run.

**Webhooks.** `WebhookProtocol` is a state machine of any number of webhook handlers and
single-user reconciliations over expiring leases, an audit table, user rows with row locks
and per-transaction buffers. Each step is one statement, after which any other worker may
run, any lease may expire, and the worker may fail, be cancelled or crash. `WebhookInvariant`
and `WebhookSteps` hold the invariant and its preservation, `WebhookTheorems` the safety
properties over runs, and deadlock freedom with progress. `WebhookDuplicates` shows what
becomes of an event that was handled before, and `WebhookOutcomes` that an event is handled,
or its failure recorded, when nobody holds what its worker needs. `WebhookParticipants` models
the deduplicated, sorted participants. Where a guarantee rests on a condition, the condition is
exact: the lease excludes a second worker if and only if it does not expire.

**Photos.** `PhotoStore` models uploads, the cleanup job and the reconciliation job as
methods over an object store and tables, with paging, batches, partial failures and
termination. `PhotoRuns` interleaves uploads, any number of reconciliation passes and
cleanups as a state machine in which each may stop after any step. `PhotoTheorems` proves
which photos survive every run, and exactly which photos can still be lost. `PhotoDates` shows
what times reconciliation gives to its rows and what these protect.
`PhotoRefinement` shows that the methods of `PhotoStore` take steps of that machine.

**Smaller machines.** `RateLimit` (fixed-window counters), `Streak` (feeding streaks against
the set of feeding days) and `Feeding` (even times and schedule generation).

Conventions. A step that raises returns `Rejected`, whatever the exception. Times are
integers. Decoded JSON dictionaries keep their iteration order (`Prelude.Table`) in methods
and lose it in the rule. Clocks, randomness, provider answers and failures are parameters.

Where the code and its documentation differ, the model follows the code:

- A freeze is documented to make up for one missed day. Before a later feeding it makes up
  for all missed days before it as well, so it does what is documented if and only if the
  frozen day follows the streak directly or the feeding comes too late. A feeding on the
  frozen day itself leaves the streak as it was; that is what is documented if and only if
  the day was marked already, or the streak was one and its eve was missed
  (`Streak.FreezeKeepsPromiseIff`, and over whole traces `Streak.StreakIsDocumentedIff`).
- The rate limiter is documented as a sliding window; it counts by the minute of the clock.
  A span of 60 seconds keeps the limit on every trace if and only if it is such a minute
  (`RateLimit.SpanKeepsLimitIffAligned`).
- Schedule generation is documented without a bound on the frequency; above 169 feedings a
  day times coincide, and the first generation for a fish without schedules fails on the
  unique constraint (`Feeding.ClashMeaning`). The API allows 1 to 10 feedings
  (app/schemas/species.py:20); only the admin form, which sets no bound
  (app/admin/views/species.py:99-102), reaches the case.
- The grace period is documented as seven days after a photo is replaced; it counts from the
  start of the replacing upload's transaction, the default of the row's time
  (app/models/orphaned_image.py:37-41). A photo is kept for a span after its last use if and
  only if the span and the longest upload fit into seven days
  (`PhotoTheorems.KeptForIffWithinGrace`).
- The reconciliation job is a safety net for abandoned uploads; it can also register a photo
  in use, which cleanup then deletes (`PhotoTheorems.OverlapLosesAPhoto`). A stored photo can
  be lost if and only if a row or a pass already names it, or a pass has asked for the keys of
  its type without being told of it (`PhotoTheorems.LostIffExposed`).

## Model

| member | source | states |
|---|---|---|
| Evidence.CandidateMeaning | app/services/purchase.py:193-239 | a record read against an entitlement yields a candidate exactly when bought at the entitlement's time; the candidate's flags are the record's own, and its expiry and grace are the entitlement's |
| Evidence.CandidateAcceptedIff | app/services/purchase.py:193-239 | a record is accepted exactly when the fields every record needs are legible and, if it was bought at the entitlement's time, its dates do not contradict the entitlement's and a subscription that is not promotional has an end |
| SubscriberParser.EnsureUniqueIdentities | app/services/purchase.py:287-301 | the pass goes through exactly when every record names its product and purchase date and no two share both |
| SubscriberParser.IdentityPassMeaning | app/services/purchase.py:438-440 | the shape check and the identity pass together accept exactly well-shaped customers whose records are identified and pairwise distinct |
| SubscriberParser.ItemsAreHeld | app/services/purchase.py:252-255 | the nested loops over a container visit exactly its records, each once |
| SubscriberParser.EntitlementOwners | app/services/purchase.py:304-312 | succeeds exactly when every entitlement names product and purchase date, and then maps each purchase to exactly the entitlements that rest on it |
| SubscriberParser.Ownership.Add | app/services/purchase.py:311 | adds one owner to one purchase and leaves every other purchase alone |
| SubscriberParser.Ownership.Claim | app/services/purchase.py:363 | replaces the owners of one purchase and leaves every other purchase alone |
| SubscriberParser.HasUnmatchedActiveEvidence | app/services/purchase.py:242-276 | fails exactly when some record cannot be read, and otherwise reports exactly whether a live record other than the matched one lacks a single owner |
| SubscriberParser.EvidenceIsUnambiguous | app/services/purchase.py:494-509 | both containers pass exactly when no record of the customer strays |
| SubscriberParser.ReadPromo | app/services/purchase.py:335-358 | one turn of the promotional loop fails exactly when store or dates do not read, and yields an entry exactly for an active grant |
| SubscriberParser.ClaimGrant | app/services/purchase.py:353-364 | a grant may claim a purchase only if nobody but Remove Ads owns it, and then becomes its only owner |
| SubscriberParser.ClaimGrants | app/services/purchase.py:334-364 | the loop with its in-place claims accepts exactly customers whose grants are in order, leaves exactly the claimed ownership, and lists exactly the active grants in order |
| SubscriberParser.LongestOf | app/services/purchase.py:409-413 | picks the first of the grants that last longest, where no expiry lasts until datetime.max |
| SubscriberParser.MatchCandidates | app/services/purchase.py:462-488 | the candidate passes fail exactly when a record of the product does not read against the entitlement, and otherwise find exactly the records bought at the entitlement's time |
| SubscriberParser.AtMostOneCandidate | app/services/purchase.py:489-493 | distinct identities leave an entitlement at most one candidate |
| SubscriberParser.CandidateDecides | app/services/purchase.py:511-529 | the one candidate is usable and unexpired exactly when the customer is entitled, and carries the entitlement's own expiry and the record's renewal and trial state |
| SubscriberParser.Support | app/services/purchase.py:365-408 | dates, candidates and stray scan together accept exactly evidenced entitlements |
| SubscriberParser.SoleOwner | app/services/purchase.py:332-363 | claiming grants does not change whether Remove Ads alone owns its purchase, so the check before the loop decides the same as one after it |
| SubscriberParser.ChooseRemoveAds | app/services/purchase.py:409-421 | returns the first longest active grant, or else the entitlement's product exactly when the customer is entitled |
| SubscriberParser.ParseRemoveAds | app/services/purchase.py:315-421 | accepts exactly customers without Remove Ads or with grants in order and supported evidence, returns the product of the rule, and extends ownership by exactly the active grants |
| SubscriberParser.LatestOf | app/services/purchase.py:517-520 | returns one of the candidates, with the latest expiry |
| SubscriberParser.ParsePremium | app/services/purchase.py:450-529 | accepts exactly customers without premium or with supported premium evidence, and returns the premium half of the rule |
| SubscriberParser.ParseSubscriber | app/services/purchase.py:424-529 | accepts a payload exactly when the declarative rule accepts the customer it decodes to, and then returns a snapshot the rule describes; ties go to the first subscription of the payload |
| AccessTheorems.AcceptanceLasts | app/services/purchase.py:242-276 | a payload that parses at one instant parses at every later one, although fewer grants extend ownership then |
| AccessTheorems.AccessDecays | app/services/purchase.py:441-529 | for a fixed payload, premium and Remove Ads at a later instant imply them earlier, and a premium that lasts keeps its details |
| AccessTheorems.LiveEvidenceHasOneOwner | app/services/purchase.py:491-509 | whenever parsing succeeds with premium or Remove Ads present, every record without a refund or revocation date whose end or grace period is still to come, or that has no end, has exactly one owner in the extended ownership |
| AccessTheorems.AcceptedIsComplete | app/services/purchase.py:279-312 | in an accepted payload every record names its purchase date and no other product, no list of one-time purchases is empty, no two records share product and date, and every entitlement names both |
| AccessTheorems.OneRecordBacks | app/services/purchase.py:462-493 | exactly one record backs each entitlement, and it alone decides access |
| AccessTheorems.PremiumIsOneRecord | app/services/purchase.py:454-529 | premium holds exactly when some record with the entitlement's product and purchase date is not refunded, not revoked, not sandbox in production, and the entitlement has no end, or its end or its grace period is still to come |
| AccessTheorems.PremiumShowsItsRecord | app/services/purchase.py:511-529 | a premium snapshot shows the later of end and grace, the record's product and trial state, and renewal exactly for a subscription neither promotional in store (in any case of letters) or period nor unsubscribed |
| AccessTheorems.GraceExtendsPremium | app/services/purchase.py:176-179 | with a proving record and both dates present, premium lasts exactly until the later of end and grace, which the snapshot shows |
| AccessTheorems.PremiumWithoutGrace | app/services/purchase.py:176-179 | without a grace date premium lasts exactly until the end, and without an end it is unlimited |
| AccessTheorems.RemoveAdsIsGrantOrRecord | app/services/purchase.py:315-421 | Remove Ads holds exactly for a customer with the entitlement whose dates and record prove it, or who has an active promotional grant, each spelled out in the fields of the records |
| AccessTheorems.RemoveAdsShowsLongestGrant | app/services/purchase.py:409-421 | the product shown is that of an active grant that gives access whenever any other active grant does, or without a grant the entitlement's |
| AccessTheorems.OrderIndependence | app/services/purchase.py:424-529 | reordering the three dictionaries changes neither acceptance nor the snapshot, except the Remove Ads product when two grants are longest |
| AccessTheorems.SnapshotDetermined | app/services/purchase.py:511-529 | the rule leaves one snapshot, up to the product of tied grants |
| AccessTheorems.SomeOrderChooses | app/services/purchase.py:409-413 | each longest grant is chosen under some order of the subscriptions |
| AccessTheorems.OrderMattersOnlyForTies | app/services/purchase.py:409-413 | the chosen product is the same for every order if and only if no two grants tie |
| Projection.UserRow.SetRemoveAds | app/services/purchase.py:776-801 | the row's settings become the projection of the old ones |
| ProjectionTheorems.RemoveAdsProjection | app/services/purchase.py:762-801 | access becomes as asked, product history grows by the product, other entitlements and all other settings keep their values |
| ProjectionTheorems.RepeatedProjectionIsStable | app/services/purchase.py:787-796 | projecting the same access again changes nothing, the time stamp included |
| ProjectionTheorems.RemoveAdsWritesIff | app/services/purchase.py:776-801 | the projection writes exactly when access is not as asked or the product is new, stamps the time then, and keeps what else the record held |
| Projection.UserRow.ApplyFreeTierLimits | app/jobs/subscription_jobs.py:226-277 | the quota becomes 3; exceeded limits, if any, are recorded with their time, and nothing else changes |
| Projection.UserRow.ClearDowngradeInfo | app/services/purchase.py:994-1024 | recorded limits and their time are removed, and the quota becomes -1 exactly if either was recorded |
| Projection.UserRow.WriteSnapshot | app/services/purchase.py:690-706 | status, expiry and settings become those of the snapshot |
| Projection.UserRow.ApplyReconciliation | app/services/purchase.py:669-720 | the assignments leave exactly the row the apply function gives, and a conflict or a failure changes nothing |
| ProjectionTheorems.ProjectedColumns | app/services/purchase.py:690-718 | after a changed proposal, status, expiry, verification time, subscription settings and Remove Ads are the snapshot's, downgrade and upgrade included |
| ProjectionTheorems.ProjectedSubscription | app/services/purchase.py:692-705 | a changed proposal with premium writes product, renewal and trial; one without premium removes product, trial and billing issue and turns renewal off; all else in the subscription settings is kept |
| ProjectionTheorems.AppliedRowShowsSnapshot | app/services/purchase.py:645-720 | whenever a proposal is applied, changed or not and after any run since it was read, status, expiry, verification time, product, renewal, trial, Remove Ads access and its product are those of the snapshot |
| ProjectionTheorems.UnchangedIffShown | app/services/purchase.py:641-666 | a read proposes no change if and only if the row, its verification time aside, shows the snapshot already |
| ProjectionTheorems.ReadAcceptedIff | app/services/purchase.py:752-759 | a read raises exactly when the subscription settings hold something else than an object or an empty value, and takes an absent or empty one as no settings |
| ProjectionTheorems.ReconciliationFixpoint | app/services/purchase.py:645-720 | whenever a proposal is applied, after any run of applies, scans and resets since it was read, reading the same snapshot again finds nothing to change, and applying that changes the verification time alone |
| ProjectionTheorems.FreshProposalApplies | app/services/purchase.py:681-688 | a proposal applies to the row it was read from while nothing has happened to it |
| ProjectionTheorems.ParsedSnapshotIsPlain | app/services/purchase.py:182-190 | every snapshot the parser makes meets the premise of the fixpoint |
| ProjectionTheorems.UnchangedOnlyVerifies | app/services/purchase.py:708-720 | an unchanged proposal writes the verification time and nothing else |
| Projection.UserRow.ScanImage | app/services/ai.py:297-362 | the scan is refused exactly without active premium and quota; the quota falls by one exactly for an accepted scan of a new image without premium |
| Projection.UserRow.ResetScans | app/services/admin.py:265-277 | the quota becomes the default and nothing else changes |
| ProjectionTheorems.ApplyKeepsQuota | app/services/purchase.py:708-718 | an apply leaves -1 only on premium that is verified |
| ProjectionTheorems.QuotaOverRuns | app/services/premium.py:31-60 | over every run of scans, applies of proposals old or new, and resets, a user without active premium at any instant has a quota of at least zero, and -1 occurs only while premium and verified |
| QuotaTheorems.ScansUseUpQuota | app/services/ai.py:297-362 | every run of scans takes from the quota one for each scan of a new image at an instant without premium, as long as the quota lasts, and changes nothing else |
| QuotaTheorems.NextScanIsAccepted | app/services/ai.py:297-301 | after any run of scans the next one is accepted exactly with premium at its time, verified or not yet ended, or when fewer scans had to be paid than the quota held |
| QuotaTheorems.QuotaAccount | app/services/ai.py:297-362 | over every run of scans, resets and applies, the quota is what the last of a reset (5), loss of premium (3) or return to it after a recorded downgrade (-1) set, or its start, less one for each scan charged since |
| ProjectionTheorems.HistoryOverRuns | app/services/purchase.py:762-808 | over every run the product history only grows, and settings the reconciliation does not own keep their values |
| WebhookParticipants.Sorted | app/services/purchase.py:1043 | returns exactly the ids of the set, each once, ascending |
| WebhookParticipants.WebhookUserIds | app/services/purchase.py:1027-1043 | returns exactly the named ids, each once, ascending |
| WebhookParticipants.AscendingIsUnique | app/services/purchase.py:1027-1043 | the participants depend only on which ids an event names, not where or how often |
| WebhookSteps.ArriveKeeps | app/services/purchase.py:846-854 | taking a lease, or being refused one, keeps the invariant |
| WebhookSteps.CheckKeeps | app/services/purchase.py:856-873 | looking up the audit under own and legacy key keeps the invariant; what the lookups decide is stated by the two theorems of `WebhookDuplicates` |
| WebhookSteps.StartKeeps | app/services/purchase.py:1085-1107 | choosing the existing participants in order keeps the invariant, in which a run goes over its participants ascending, each once |
| WebhookSteps.AnswerKeeps | app/services/purchase.py:602-666 | reading a proposal keeps the invariant, in which each proposal is verified later than its baseline was |
| WebhookSteps.LockAndApplyKeeps | app/services/purchase.py:669-720 | an apply under the row lock, conflicts and failures included, keeps the invariant, in which every buffered write is an apply to the row as committed |
| WebhookSteps.SelectAuditKeeps | app/services/purchase.py:930-962 | locking the audit row keeps the invariant, in which a terminal row is never put down for change |
| WebhookSteps.InsertAuditKeeps | app/services/purchase.py:936-953 | inserting an audit keeps the invariant, in which an insert is pending only while no row has the key |
| WebhookSteps.CommitKeeps | app/api/purchase.py:172-185 | the commit of buffered rows and audit keeps the invariant, and with it what every other worker knows |
| WebhookSteps.ActionKeeps | app/api/purchase.py:160-231 | every action of every worker, lease expiry and outside writer keeps the invariant |
| WebhookSteps.RunKeeps | app/api/purchase.py:160-231 | the invariant holds after every run from an initial state |
| WebhookTheorems.SuccessIsAudited | app/api/purchase.py:128-231 | a webhook that answered success has a committed success or skipped audit for its event under its own or legacy key, then and in every continuation |
| WebhookTheorems.AuditsChangeByCommit | app/services/purchase.py:930-962 | the audit table changes only by a commit, at the committing run's key |
| WebhookTheorems.TerminalStays | app/services/purchase.py:954-960 | no action changes a terminal audit or removes one |
| WebhookTheorems.TerminalForever | app/services/purchase.py:954-960 | over every run a terminal audit stays as it is |
| WebhookDuplicates.DuplicateIsDismissed | app/services/purchase.py:856-873 | over every run, a worker that looks its event up while that has a success or skipped audit, under its own key or an older handler's, has no participants and no committed update in any continuation, and answers success unless it dies |
| WebhookDuplicates.CheckDecides | app/services/purchase.py:824-873 | by its own lookups a worker gets past the check if and only if the event is not concluded under its own key and, when that has no audit at all, not concluded under the legacy key for the same event; an error is tried again |
| WebhookTheorems.CommitFindsItsKey | app/services/purchase.py:930-953 | a committed insert meets no row under its key, and a committed update one that is not terminal |
| WebhookTheorems.LeaseEndsByOwnerOrExpiry | app/services/purchase.py:884-902 | a lease ends by its holder's release or by expiry, never by another worker's release |
| WebhookTheorems.LeaseExcludesWithoutExpiry | app/services/purchase.py:846-870 | in every run without an expiry of the key, at most one worker is under way on it, and it holds the lease |
| WebhookTheorems.LeaseExcludesIffItDoesNotExpire | app/services/purchase.py:846-850 | from every initial state, no run has two workers under way on a key if and only if expiries of the key are not allowed |
| WebhookTheorems.ProtectedIffLeaseStands | app/services/purchase.py:846-902 | a worker under way stays alone on its key in every continuation without an expiry if and only if a lease of the key stands and nobody else is under way already |
| WebhookTheorems.LeaseAloneDoesNotExclude | app/services/purchase.py:846-870 | with one early expiry, some run takes two workers of one event past the audit check |
| WebhookTheorems.NoLostUpdate | app/services/purchase.py:681-688 | of all proposals read from one verified baseline of a user at most one is ever committed |
| WebhookTheorems.CommitFindsItsBaseline | app/services/purchase.py:681-709 | every committed update finds status, expiry, verification time, subscription settings and Remove Ads as it read them |
| WebhookTheorems.RowsChangeByCommit | app/services/purchase.py:671-676 | a user row changes only by another writer or by a commit |
| WebhookTheorems.SuccessAppliesEveryParticipant | app/services/purchase.py:1109-1119 | an audit turns to success only in a commit that writes exactly the run's participants, at least one and all named by the event, each row becoming what its own proposal, read and still current, makes of it |
| WebhookTheorems.AudienceFromStart | app/services/purchase.py:1097-1107 | the participants of a run are those with a live row when it started |
| WebhookTheorems.SuccessAppliesEveryNamedUser | app/api/purchase.py:172-185 | over every run, an audit turns to success only in the commit that applies a snapshot to every named user with a live row at the start, to nobody else, and to at least one |
| WebhookTheorems.UpdatesComeWithTheirAudit | app/api/purchase.py:172-182 | a webhook's row updates become visible only together with a terminal audit of its event |
| WebhookTheorems.CollisionCommitsNothing | app/api/purchase.py:187-209 | a run that met a stale baseline or an audit collision never commits a row update |
| WebhookTheorems.HeldBelowWanted | app/services/purchase.py:1101-1118 | every lock a worker holds comes before the one it waits for: users by id, then the audit row |
| WebhookTheorems.ChainAscends | app/services/purchase.py:671-676 | along a chain of waiting workers the wanted locks ascend |
| WebhookTheorems.NoDeadlock | app/services/purchase.py:1101-1118 | in every reachable state no workers wait for each other in a circle |
| WebhookTheorems.SomeoneProceeds | app/services/purchase.py:671-676 | from any waiting worker, following lock holders reaches one that does not wait |
| WebhookTheorems.Progress | app/api/purchase.py:160-231 | while any run is unfinished, some run can take its next ordinary step |
| WebhookOutcomes.EventIsHandled | app/api/purchase.py:160-185 | from any state in which the event is unleased and not concluded and nobody holds a row lock, one worker's own steps handle it: exactly the named live users come to show the provider's answers, success or skipped is recorded, the lease is gone, and the reply is success |
| WebhookOutcomes.UserIsReconciled | app/services/purchase.py:723-737 | a single-user reconciliation likewise brings exactly its user to the provider's answer, and touches no lease and no audit |
| WebhookOutcomes.FailureIsRecorded | app/api/purchase.py:128-150 | a fault at any point past the check leads by the worker's own steps to a recorded error without any row update, a released lease and a failure reply, or to success on an audit that was concluded meanwhile |
| WebhookOutcomes.WhatStopsAWebhook | app/services/purchase.py:671-688 | a row gone at the read, or gone or changed at the lock, leads to the recording of an error; settings that do not convert end the run without one |
| WebhookOutcomes.CollisionReplies | app/api/purchase.py:190-195 | after a collision on the audit the reply is success exactly when the other run has concluded the event |
| PhotoStore.EntityTypeFromKey | app/jobs/image_cleanup.py:181-186 | the loop over the prefixes returns the type of the key's prefix, or "unknown" |
| PhotoStore.KeyRoundTrip | app/services/image_service.py:217-237 | a key is built exactly for a valid type, lies under a scanned prefix, and gives the type back |
| PhotoStore.OnePrefix | app/jobs/image_cleanup.py:50-57 | no key lies under two scanned prefixes |
| PhotoStore.PhotoStore.RegisterOrphaned | app/services/image_service.py:387-408 | adds one row under a new id |
| PhotoStore.PhotoStore.UpdateEntityPhotoKey | app/services/image_service.py:503-560 | fails exactly for an invalid type or a missing row; otherwise the entity points at the new key, a replaced key is tracked, and no key leaves the union of live and tracked keys |
| PhotoStore.PhotoStore.UploadImage | app/services/image_service.py:563-632 | succeeds exactly when every step does; a failed upload leaves the tables alone and at most its own object behind |
| PhotoStore.PhotoStore.FetchExpired | app/jobs/image_cleanup.py:104-112 | returns the oldest expired rows, at most 100, oldest first |
| PhotoStore.PhotoStore.DeleteObjects | app/jobs/image_cleanup.py:118-136 | reports exactly the rows whose delete succeeded, and exactly their objects are gone |
| PhotoStore.FewerExpired | app/jobs/image_cleanup.py:101-165 | the loop's termination measure: a batch that frees a row leaves fewer expired rows |
| PhotoStore.PhotoStore.ImageCleanupJob | app/jobs/image_cleanup.py:60-178 | for every pattern of delete failures the job ends, removes exactly the rows whose delete succeeded and their objects, counts them exactly, and stops only when no expired row remains or a whole batch of the oldest failed |
| PhotoStore.PhotoStore.KnownKeys | app/jobs/image_cleanup.py:222-248 | the queries find exactly the keys entities point at and the tracked keys |
| PhotoStore.PhotoStore.Unreferenced | app/jobs/image_cleanup.py:282-294 | one page yields an orphan for each key it lists that is not known, in order, of the key's type and dated to the job's time |
| PhotoStore.PhotoStore.Flush | app/jobs/image_cleanup.py:297-306 | inserts the pending rows in order under new ids |
| PhotoStore.PhotoStore.S3ReconciliationJob | app/jobs/image_cleanup.py:189-327 | over any pages, inserts one row for each listed key not known at the start, in listing order despite batched flushing, each of its prefix's type and dated to the job's time, keeps all other rows, and reports exact counts |
| PhotoStore.ReconciliationIsExact | app/jobs/image_cleanup.py:264-317 | with the storage at rest, the inserted keys are exactly the stored keys under the three prefixes neither referenced nor tracked, each once |
| PhotoStore.SecondPassInsertsNothing | app/jobs/image_cleanup.py:240-248 | a second pass over the same storage inserts nothing, however either listing was paged |
| PhotoRuns.StepKeeps | app/jobs/image_cleanup.py:60-327 | every step of an upload, a cleanup or a pass keeps the invariant of the two stores |
| PhotoRuns.AccountedKept | app/services/image_service.py:549-552 | a stored object never falls out of the account of live, tracked, uploading and dropped keys |
| PhotoTheorems.LivePhotosSurvive | app/services/image_service.py:604-622 | in every run, a photo whose upload met no pass is stored and named by no orphan row |
| PhotoTheorems.NothingIsForgotten | app/services/image_service.py:581-583 | in every run, each stored object is live, tracked, or of an upload that has not reached or never reached the database |
| PhotoTheorems.CrossedMeaning | app/jobs/image_cleanup.py:222-300 | the recorded exceptions are exactly the uploads under way together with a pass |
| PhotoTheorems.WithoutOverlapNothingIsLost | app/jobs/image_cleanup.py:222-317 | in a run without overlap no orphan row names a live photo, every live photo is stored, and every stored object is accounted for |
| PhotoTheorems.GracePeriodIsKept | app/models/orphaned_image.py:37-41 | in runs whose uploads take at most a delay from the start of their transaction to its commit, a photo in use at some moment is stored for the following seven days less the delay, unless its upload met a pass |
| PhotoTheorems.KeptForIffWithinGrace | app/jobs/image_cleanup.py:84-109 | photos are kept for a span after every moment of use, in all runs with uploads of at most a delay, if and only if span and delay together are at most seven days |
| PhotoDates.PassDatesItsRows | app/jobs/image_cleanup.py:261-306 | over every run, a row that a pass inserts has the time of the pass's last query and the type of its key, and the pass listed the stored key after that query without knowing it; each listing is inserted once |
| PhotoDates.FoundObjectsAreKept | app/jobs/image_cleanup.py:83-110 | a stored object neither in use nor of an upload, with no row and no pass that dates it before a moment, is stored at every later time up to seven days after that moment |
| PhotoTheorems.LostIffExposed | app/jobs/image_cleanup.py:222-317 | in every reachable state, some continuation deletes a stored photo in use if and only if a row names its key, a pass is about to insert one, or a pass has asked for the keys of its type and does not know it |
| PhotoTheorems.OverlapLosesAPhoto | app/jobs/image_cleanup.py:222-317 | some run with an overlapping upload deletes a photo in use |
| PhotoRefinement.Upload | app/services/image_service.py:563-632 | an upload with a fresh key takes the machine's steps: its transaction begins, it stores, and however long it takes it attaches, with the orphan row dated to the beginning, or is abandoned |
| PhotoRefinement.Cleanup | app/jobs/image_cleanup.py:60-178 | the cleanup job takes the machine's steps: one delete for each successful attempt, and the removal of those rows |
| PhotoRefinement.Reconcile | app/jobs/image_cleanup.py:189-327 | the reconciliation job takes the machine's steps of one pass: four queries, the listing, the rows |
| RateLimit.RateLimiter.IncrementWithExpire | app/middleware/rate_limit.py:56-62 | increments one counter, restarting it once expired, and sets the expiry only then |
| RateLimit.RateLimiter.CheckRateLimit | app/middleware/rate_limit.py:110-152 | admits exactly counts up to the limit, and a refused caller that waits as told comes back in a later minute |
| RateLimit.CountersKept | app/middleware/rate_limit.py:56-62 | while the window covers minute and delay, each counter holds exactly the calls of its minute |
| RateLimit.OtherCallersDoNotCount | app/middleware/rate_limit.py:74-84 | on every trace, what a call is told is what it would be told if only the calls of its own identifier and type had been made |
| RateLimit.ExpiryIsOfFirstCall | app/middleware/rate_limit.py:56-62 | a counter expires a window after the first call of its minute; later calls do not prolong it |
| RateLimit.ExactIffWindowCovers | app/middleware/rate_limit.py:74-95 | the counters are exact on every trace if and only if the window covers a minute and the delay between key and script |
| RateLimit.AdmittedPerMinute | app/middleware/rate_limit.py:133-152 | exactly the first `limit` calls of each minute are admitted |
| RateLimit.AdmittedPerSpan | app/middleware/rate_limit.py:110-152 | no span of 60 seconds admits more than twice the limit |
| RateLimit.TwiceTheLimitIsReached | app/middleware/rate_limit.py:86-95 | for every limit, every span that straddles two minutes reaches twice the limit on some trace |
| RateLimit.SpanKeepsLimitIffAligned | app/middleware/rate_limit.py:48-152 | every trace keeps the limit within the 60 seconds after an instant if and only if the instant starts a minute or the limit is zero |
| Streak.Streaks.UpdateStreak | app/services/gamification.py:228-270 | creates the row if missing and applies one feeding to it |
| Streak.Streaks.UseFreeze | app/services/gamification.py:273-313 | raises without a row, refuses without a freeze, and otherwise spends one and moves the last date |
| Streak.StreakIsRun | app/services/gamification.py:243-265 | without freezes, the current streak is the length of the run of consecutive days ending at the last feeding day, and the best streak the longest run anywhere |
| Streak.StreakCountsSinceStart | app/services/gamification.py:243-306 | with freezes, the current streak is the number of days fed before any freeze since the last day whose eve has neither feeding nor freeze |
| Streak.FreezesAreConserved | app/services/gamification.py:296-306 | on every trace the current streak is at most the best, and available and used freezes add up to two, none negative |
| Streak.FreezesAreSpent | app/services/gamification.py:273-313 | on every trace, the first two freezes asked for after the first feeding are granted and counted as used, and all others are refused |
| Streak.BestIsLongest | app/services/gamification.py:243-265 | on every trace, the best streak is the longest that was ever current |
| Streak.FreezeThenFeed | app/services/gamification.py:243-303 | after any history, a feeding on the day after a granted freeze continues the streak, one on the frozen day leaves it, and any other restarts it |
| Streak.FreezeKeepsPromiseIff | app/services/gamification.py:276-303 | after any history, a granted freeze and the next feeding give the documented streak if and only if: for a later feeding, the frozen day or its eve is marked or the feeding does not follow at once; for a feeding on the frozen day, that day was marked already, or its eve was not and the streak is one |
| Streak.StreakIsDocumentedIff | app/services/gamification.py:243-303 | on every trace, the reported streak exceeds the number of days fed in the documented streak by the days a freeze wrongly healed, less the fed days it ignores, so both agree if and only if these are equally many; nothing is healed if and only if every later fed day follows a day that was fed or rightly frozen |
| Feeding.ComputeEvenTimes | app/services/feeding.py:70-90 | the loop yields the predefined or the computed times |
| Feeding.NearestFiveMeaning | app/services/feeding.py:87 | rounding gives a multiple of 5 within 2 minutes, so the nearest one |
| Feeding.EvenTimesSpread | app/services/feeding.py:78-90 | computed times are multiples of 5 minutes in order, from 07:00 to exactly 21:00 |
| Feeding.EvenTimesAreEven | app/services/feeding.py:70-90 | there are as many times as the frequency; up to three they are the fixed ones, and above each lies less than 3 minutes from an even division of 07:00 to 21:00 |
| Feeding.DistinctUpTo169 | app/services/feeding.py:70-90 | the times are all different, and increasing, if and only if the frequency is at most 169 |
| Feeding.AllLackingMembers | app/services/feeding.py:131-172 | a generation creates exactly the schedules of live fish that do not exist |
| Feeding.NewFishGetsItsFrequency | app/services/feeding.py:134-172 | a fish without schedules gets as many as its species' frequency, at least one, and one without a species, at the even times of that number in order |
| Feeding.AllLackingDistinct | app/models/feeding.py:104 | the unique constraint lets a generation through if and only if no fish lacks a time twice |
| Feeding.ClashMeaning | app/services/feeding.py:131-172 | up to 169 feedings a day nothing can clash, and above, a fish without schedules always does |
| Feeding.SecondGenerationIsEmpty | app/services/feeding.py:103-104 | what one generation creates leaves nothing for the next |
| Feeding.Schedules.GenerateSchedule | app/services/feeding.py:93-183 | keeps (fish, time) unique, creates exactly what is missing, covers every time of every live fish, and creates nothing when all exist |

## Left out

- Evidence.ParseCandidate: date parsing and JSON decoding are read as fields that are absent, null, malformed or present; the check that `now` carries a timezone is left out.
- SubscriberParser.ParseSubscriber: which error a rejected payload raises, and its HTTP status, are one `Rejected`; the owner check of premium runs after the candidate passes and the stray scan instead of between them, which only changes which error is raised.
- Projection.SubscriptionOf: a list of pairs or of two-character strings raises here, where Python would convert it to a dictionary; no modelled code stores one.
- Projection.Read: the provider call, its cooldown, status 201 and 429, and the environment lookup are left out; a failed read is a fault of the worker.
- Projection.UserRow.ApplyReconciliation: the exceeded limits and ISO time stamps are parameters; Python's equality of True and 1 is kept where one flag is compared, and dropped where whole settings dictionaries are.
- ProjectionTheorems.QuotaOverRuns: admin forms that set status or verification time directly are not events.
- WebhookProtocol.Enabled: other writers of user rows are assumed to leave the verification time alone; hard deletion of users is not modelled.
- WebhookTheorems.NoDeadlock: another writer of a user row is one instantaneous step that waits until the row is free, so the locks such writers hold for longer are outside the wait-for graph.
- WebhookTheorems.NoLostUpdate: verification times are assumed distinct; the model's clock advances with every answer.
- WebhookProtocol.Stepped: ownership tokens are the workers' names, which assumes fresh tokens; one audit row per key is the shape of the table, and the nested transaction of the insert is one step.
- WebhookProtocol.Audience: classification of event types and the sandbox rule are one parameter of the job; authorization, invalid payloads and their audits are left out.
- WebhookParticipants.WebhookUserIds: UUID syntax is a parsed or absent id, and ids are numbers in the order of their text.
- PhotoStore.PhotoStore.UploadImage: access checks and image validation are parameters, and so is the random part of the key.
- PhotoRuns.Enabled: upload keys are assumed fresh; the short random part makes that likely but not certain within one entity.
- PhotoRuns.Effect: database and jobs read one clock; photo keys written by sync, profile edits and account deletion are left out.
- PhotoRefinement.Cleanup: the batches of one run are taken as one, and nothing runs between the steps of the three jobs; the machine itself allows both.
- RateLimit.RateLimiter.CheckRateLimit: the application and the storage read one clock; hashing of identifiers, bypass paths and token decoding are left out.
- Feeding.EvenTime: times are exact; the original divides floating-point numbers.
- Feeding.Schedules.GenerateSchedule: columns outside the unique constraint and the access check are left out.
- Streak.Streaks.UpdateStreak: the period columns are left out, as no modelled code writes them.
- The batch loop of the expired-subscription job, its counters and notifications: a sequence of single-user reconciliations, each of which is a `Solo` worker of the protocol.
- Restore: its receipt handling; the reconciliation it ends in is a `Solo` worker.
- Achievements, weekly statistics, family membership, quiet hours and notifications: one-branch claims that would add only easy members.
- The sliding-hour AI limiter: its reset time is undefined at hour 23 and its check and increment are separate, so there is no concurrent bound to prove.
- HTTP, Redis and SQL plumbing, OAuth, tokens, passwords, e-mail, push, AI providers and image decoding: foreign libraries.
