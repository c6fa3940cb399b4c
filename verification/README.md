# Verified models of the Agora CMS worker and its neighbours

The CMS puts transcode, capture and imaging work on a lease-based queue; any number of worker
processes take messages from it, each updates a `Job` row and the row the job is about, and the CMS
sweeps up after the ones that stop. This project models those protocols and proves what every run of
them keeps, what a run can break, and the exact step at which it breaks.

`dafny verify dfyconfig.toml` checks everything.

## How it is organised

* `Jobs.dfy` has the rows, the partial unique index and the transactions on them (worker and CMS
  side). `Protocol.dfy` puts them together as a transition system: any number of worker attempts
  (a phase, a pop receipt, a heartbeat and the three stop reasons each), the queue, the outbox, the CMS
  monitor, cancellation, soft delete, recapture, start-up repair, SIGTERM, crashes, lapsing leases and
  failing transactions.
  `Rules` names the disciplines a run may follow; a theorem says which of them it needs, and with none of
  them a run is any run.
  The database runs at READ COMMITTED, so what a transaction reads without a lock and writes back later
  (`claim_job`, `mark_done`, the exhaustion mirrors, the monitor's variant, the reconciler) is two steps.
* `ProtocolInvariant.dfy` carries the base invariant through every step. On it rest
  `PublishSafety.dfy`, `NoJobLost.dfy`, `Recovery.dfy` (which jobs come back), `Orphans.dfy` (which
  variants do), `DispatchBound.dfy`, `Dispatching.dfy` (what is never dispatched), `Finalization.dfy`,
  `StopReasons.dfy` (which event calls for which finalize branch), `ReadyAbsorbing.dfy` and
  `OutputFiles.dfy` (the file behind a READY row). `Statuses.dfy` says of every row what each step leaves
  in it, in terms of the rows and the attempts' flags alone. `Gaps.dfy` and `DispatchGaps.dfy` hold reachable runs that break the stronger
  wishes, each beside the exact condition.
* `QueueWorker.dfy` is one attempt as an object whose methods assign fields; each method is proved to do
  exactly what one protocol action says, so the theorems about runs are theorems about that code.
* `Lease.dfy`, `Progress.dfy`, `Drain.dfy` and `Captures.dfy` are the heartbeat timing, the ffmpeg progress
  loops and the listen-mode loops.
* `Imager.dfy` is the second transition system: base images, provisioned images, their blobs, jobs
  and running handlers. `ImagerLifecycle.dfy` has what every run keeps, `ImagerRules.dfy` what holds
  under a rule and the exact step that breaks it, `ImagerGaps.dfy` the breaking runs,
  `ImagerWorker.dfy` the handlers as methods, and `Download.dfy` the verified download they use.
* `RateLimit.dfy`, `Registry.dfy`, `ScheduleAudit.dfy`, `Signature.dfy` (with `Text.dfy`) and
  `Migration.dfy` are self-contained.

## What turned out not to hold

Each is a theorem with a concrete run or input, and an exact condition beside it.

* A shutdown that is not a timeout deletes the message and leaves the job to the staleness monitor,
  which watches only PROCESSING transcodes whose variant is PROCESSING and not superseded. Every
  other job is then PROCESSING for ever: any capture, synthesis, import or provision, and a transcode
  whose handler has already recorded a failure (`Gaps.ShutdownStrandsCapture`, `Gaps.ShutdownStrands`;
  exactly when: `Recovery.InterruptedIff`, `Recovery.LastCarrierIff`), against the comment at
  worker/__main__.py:771-776.
* `claim_job` reads the attempt count without a lock and writes it later, so two claims can share one
  attempt. The dispatches of one job row are bounded, by three, if and only if claims find the count they
  have read, or leases are held and sends single (`DispatchGaps.DispatchBoundedIff`,
  `DispatchGaps.FourthDispatch`).
* READY is lost to a recapture, to the start-up repair of image names, to the genuine-timeout branch,
  to four unguarded handler writes, the failing storage sync among them, and to the monitor and the
  exhaustion mirror, which write by key what they decided on a status read earlier
  (`Gaps.MonitorOverwritesReady`, `Gaps.MirrorOverwritesReady`, `ImagerGaps.MirrorFailsReady`;
  `ReadyAbsorbing.LeavesReadyIff` and `ImagerRules.LosesReadyIff` list every step that can do it).
* `mark_done` promises not to write over a terminal status; it does so exactly when the job has become
  terminal since it was read (`Gaps.DoneOverwritesCancelled`, `Gaps.DoneOverwritesIff`).
* A recapture leaves its variants PENDING for good: no active job, and a newest job that is DONE, which the
  reconciler never repairs (`Gaps.RecaptureOrphans`; exactly when: `Orphans.OrphanSettlesIff`), against
  the comment at cms/routers/assets.py:2720-2722.
* The file of a READY variant can be gone: an evicted worker unlinks what its replacement published
  (`Gaps.AbortUnlinksPublished`), a recapture and a profile's deletion unlink before they touch the row
  (`Gaps.CmsUnlinksReady`), or a recapture resets under a worker that then publishes
  (`Gaps.RecaptureLosesFile`). `OutputFiles.LosesFileIff` lists the steps,
  `OutputFiles.PublishedKeepsFile` the runs in which the file stays.
* A publication is owned by an active job, always, exactly when its source is guarded, which composed and
  webpage thumbnails are not, and nothing comes between guard and commit (`Gaps.OwnedIffGuarded`,
  `Gaps.UnguardedSkipsOwnership`, `Gaps.GuardWindow`).
* The retry branch revives a job the monitor has failed, unless the replacement is still active
  (`Gaps.RetryRevivesIff`); under a stale receipt it leaves a PENDING job that nothing carries
  (`NoJobLost.RetryKeepsJobIff`).
* `recover_interrupted` in one starting worker takes a variant from under another: each holder stays
  alone on its variant exactly when nobody holds one (`Drain.RecoverKeepsExclusiveIff`,
  `Drain.RecoverSharesVariant`).
* `process_pending` is bounded exactly when nothing claimable is a stream (`Drain.DrainBoundedIff`), and
  `process_captures` has ended exactly when as many turns have succeeded as there are streams
  (`Captures.EndedIff`, `Captures.FailingBlocks`); `STREAM_MAX_RETRIES` is not used.
* A stale import attempt can make a base row READY with a hash other than the one it is pinned to
  (`ImagerGaps.StaleImport`, `ImagerRules.CommitMatchesPinIff`), and a duplicate pickup can turn a READY
  image FAILED (`ImagerGaps.DuplicateFailsReady`, `ImagerRules.LosesReadyIff`).
* A connection id that comes back under another user would misroute (`Registry.ReusedIdMisroutes`,
  `Registry.AddKeepsIff`). The one caller of `add` mints a fresh id each time (local-broker/broker.py:585),
  so this program never does it; `Registry.RegistryIsLive` is about such callers.
* The audit reports pairs that share no date (`ScheduleAudit.ReportedIsClashIff`), and misses a pair when
  tags calls fail, exactly if one of the two is narrowed to a tag and the call failed for every device
  they share (`ScheduleAudit.MissedIff`, `ScheduleAudit.FailedTagCallHides`).
* A signature entry that is not ASCII makes verification raise instead of refuse, unless the first
  key's digest comes before it (`Signature.RaisesIff`, `Signature.NonAsciiRaises`).
* A slideshow that has both a rule and slides of its own changes its deck in 0047
  (`Migration.DeckUnchangedIff`), and one whose rule has no anchor goes over to its own, if it has one
  (`Migration.AnchorUnchangedIff`, `Migration.CycleUnmovedIff`).

The docstring of `_queue_mode` speaks of a 30-second visibility timeout; the model follows the code,
which uses 60.

## Model

| member | source | states |
|---|---|---|
| Jobs.OneActive | shared/models/job.py:63-77 | under the partial unique index two active transcode jobs of one variant are the same job |
| ProtocolInvariant.RecoverStages | cms/services/transcoder.py:695-802 | the monitor's write on a job it has picked and locked is never refused by the index; an unflagged job always gets its replacement, a flagged one cancels the variant and stages none, whatever the variant's status has become since the pick |
| ProtocolInvariant.BaseHolds | worker/__main__.py:285-995 | in every run, without any rule, the index holds, ids and receipts are never reused, and each worker's row, message, receipt and flags stay consistent with the tables |
| PublishSafety.PublishUnderOnlyActiveJob | worker/transcoder.py:207-236 | when guard and commit are one step, a guarded variant is committed READY under a job that is active for it, and no other job is |
| PublishSafety.PublishOfLiveAsset | worker/transcoder.py:1018-1034 | when guards and commit are one step, nothing of a deleted asset is published, whatever its source |
| PublishSafety.OneWorkerPerJob | worker/__main__.py:337-341 | while leases are held, two live workers never work on one job |
| PublishSafety.NoPublishOverReady | worker/transcoder.py:1150-1166 | with held leases, single sends and atomic publishing nobody commits READY over READY |
| PublishSafety.NoDoublePublish | worker/transcoder.py:1150-1166 | between two commits of one variant there is a state in which it was not READY |
| NoJobLost.NoPendingJobLost | worker/__main__.py:969-995 | if the retry branch fires only under the current receipt, every PENDING job has its outbox row or a message that nobody past its claim holds, overlapping claims included |
| NoJobLost.UncarriedIsProcessing | worker/__main__.py:650-707 | an active job that nothing carries is PROCESSING |
| NoJobLost.RetryKeepsJobIff | worker/__main__.py:974-987 | a retry write leaves its job carried exactly when the receipt is current or something else carries it |
| Recovery.StrandedForGood | worker/__main__.py:770-809 | an active job of any kind that nothing carries, nobody works on and the monitor neither watches nor has picked stays so over every run until a user deletes the job or its asset |
| Recovery.LastCarrierIff | cms/services/transcoder.py:695-802 | when the last carrier of an active job is removed, the job can still end if and only if it is a PROCESSING transcode whose variant is PROCESSING and not superseded, or one the monitor has picked already |
| Recovery.InterruptedIff | worker/__main__.py:770-809 | the same for a shutdown that is not a timeout, over its finalize branch and queue delete |
| Orphans.OrphanSettlesIff | cms/services/transcoder.py:1370-1470 | a variant in flight with no active job, carrier or worker, left alone, can still come to an end if and only if its newest job was cancelled or failed with its attempts used up and neither it nor its asset is on its way out, or the reconciler has judged it already |
| Orphans.OrphanEndsAs | cms/services/transcoder.py:1418-1426 | and on every way on it ends CANCELLED if its newest job was cancelled, and FAILED if that failed with its attempts used up |
| Gaps.RecaptureOrphans | cms/routers/assets.py:2701-2723 | a reachable recapture after which the variant can never come to an end |
| DispatchBound.DispatchedAtMost | shared/services/jobs.py:235-275 | if claims find the count they have read, as a rule or because leases are held and sends single, one job row is dispatched at most three times |
| DispatchGaps.DispatchBoundedIff | shared/services/jobs.py:248-275 | the dispatches of a job row are bounded at all if and only if one of these two conditions holds |
| DispatchGaps.FourthDispatch | shared/services/jobs.py:248-275 | a reachable fourth dispatch of one job row |
| DispatchBound.LogIsDispatches | worker/__main__.py:717-722 | the log counted above grows by exactly the dispatch a step makes |
| Dispatching.DispatchesIff | worker/__main__.py:611-648 | the check before the dispatch lets a job through exactly if its row, as read, is not flagged and its asset, where it has one, is not deleted |
| Dispatching.FlaggedNotDispatched | worker/__main__.py:611-648 | over every run, a job flagged for cancellation before an attempt read its row is never dispatched by that attempt |
| Dispatching.DeletedNotDispatched | worker/__main__.py:621-648 | once an asset has been deleted, no capture or synthesis of it and no transcode of a variant that is still there is dispatched |
| DispatchBound.ClaimFailsIff | shared/services/jobs.py:248-275 | a claim leads to the poison branch exactly when the count it has read is used up, and raises the row's count exactly when that has not gone beyond the one read |
| DispatchBound.MirrorSettles | worker/transcoder.py:39-106 | the mirror goes on to write exactly when it has read its variant, base image or provisioned image in flight with no newer job, and its write settles that row and touches no other |
| DispatchBound.PoisonRemovedSettled | worker/__main__.py:580-609 | over any run, a worker with an exhausted transcode or imager job removes the message only after a state in which its target was settled |
| Finalization.OneStopReason | worker/__main__.py:404-532 | cancel-observed, evicted and lease-lost exclude each other, and each ends the heartbeat |
| Finalization.ReasonsSettle | worker/__main__.py:536-556 | once the heartbeat has stopped none of the three changes, whatever happens |
| StopReasons.StampSets | worker/__main__.py:446-494 | a stamp sets job-evicted exactly if the row is gone or terminal, and cancel-observed exactly if it is active and flagged |
| StopReasons.FlagsIff | worker/__main__.py:404-532 | over every run each flag of an attempt is set exactly if its event has happened: such a stamp, a failed renewal, SIGTERM, old age |
| StopReasons.CheckReports | worker/transcoder.py:1326-1338 | a pickup of a READY variant reports success, and of any other goes to work |
| StopReasons.FinalsCalledFor | worker/__main__.py:766-995 | every branch an attempt has taken is the one its history called for: signal before eviction before lost lease before cancellation, and then what the handler reported |
| Finalization.OneBranchEach | worker/__main__.py:766-995 | no attempt takes two finalize branches |
| Finalization.TookBranchIff | worker/__main__.py:763-995 | an attempt has taken a branch if and only if its finalize block ran and its writes, `mark_done` included, went through |
| Finalization.LeavesFinalizingBy | worker/__main__.py:763-995 | an attempt leaves the finalize block by a branch that is through, a failing write or a crash only |
| Finalization.FailuresCounted | worker/__main__.py:843-995 | the failure counter, plus the attempts that have not reached it or crashed before it, is the number of timeout, terminal and retry branches |
| Statuses.JobStatusAfter | worker/__main__.py:650-995 | after any step of anyone a job's status is the one that step is listed to write, or what it was |
| Statuses.CancelWrites | worker/__main__.py:650-660 | both cancels write CANCELLED to the job and change nothing else of it or of other jobs |
| Statuses.DoneReportsSuccess | worker/__main__.py:961-968 | a job becomes DONE only at the `mark_done` of an attempt on it whose handler reported success |
| Statuses.VariantStatusAfter | worker/transcoder.py:1150-1178 | after any step a variant's status is the one that step is listed to write, or what it was |
| Statuses.ImagerStatusAfter | worker/imager_handlers.py:397-428 | the same for the images that imager jobs are about |
| Statuses.JobColumnsAfter | shared/services/jobs.py:248-275 | and for a job's kind, target, attempt count, cancel flag and heartbeat |
| Statuses.JobsAppear | shared/services/jobs.py:140-190 | a CMS step adds a job and its outbox row together, for exactly what is open to be staged, and only a job's own deletion removes one |
| Statuses.MessageGoesIff | worker/__main__.py:800-805 | a message goes exactly with the queue delete of the attempt that holds its current receipt |
| Statuses.MessageAfter | worker/__main__.py:407-422 | a receive and a renewal give a message a new receipt and hide it, a lapse shows it again, and nothing else touches it |
| Statuses.GoesToDelete | worker/__main__.py:766-995 | which finished attempts go on to their queue delete, by their flags and outcome |
| Statuses.SweepsPickIff | cms/services/transcoder.py:695-718 | the monitor picks exactly the stale PROCESSING transcodes whose variant is PROCESSING and not superseded |
| Statuses.JudgesIff | cms/services/transcoder.py:1386-1426 | the reconciler judges exactly the live variants in flight without an active job whose newest job was cancelled or used up |
| Statuses.MirrorsIff | worker/transcoder.py:64-94 | an exhausted attempt goes on to fail its target exactly if that is in flight and no newer job of the kind is about it |
| Statuses.OnlyStreamsRetry | worker/transcoder.py:627-646 | a handler puts back a saved stream's variant only |
| Finalization.LostLeaseWritesNothing | worker/__main__.py:877-885 | a lease-lost attempt without SIGTERM writes no row, no queue, no counter |
| Finalization.LostLeaseActsIffSigterm | worker/__main__.py:770-877 | a worker without its lease goes on to remove the message exactly when SIGTERM came too |
| ReadyAbsorbing.SweepsKeepTerminal | worker/__main__.py:675-688 | no cancel, no exhaustion mirror and no CMS step but the variant's deletion and reset changes a variant that is already terminal, as long as the status it was decided on is still there |
| ReadyAbsorbing.CancelActsIff | worker/__main__.py:904-927 | the cancel write reaches the variant exactly while it is in flight |
| ReadyAbsorbing.LeavesReadyIff | worker/__main__.py:824-832 | a step takes a variant out of READY exactly if it is the row's deletion, its reset by a recapture or the start-up repair, the timeout branch, a stale write of the monitor or the mirror, or one of four unguarded handler writes |
| ReadyAbsorbing.ReadyStays | worker/transcoder.py:627-646 | with no timeout, no failure after the commit, no stale write of monitor or mirror and one worker per variant, READY lasts over any stretch of a run until the row is deleted or reset |
| OutputFiles.LosesFileIff | worker/transcoder.py:239-258 | a variant's file goes at a step exactly if it is an abort of a worker on that variant, a reset, or an unlink by the CMS |
| OutputFiles.PublishedKeepsFile | worker/transcoder.py:1150-1166 | with one worker per variant, which no reset or unlink disturbs, a published variant keeps its file while it stays READY, unless the CMS unlinks it |
| Gaps.TimeoutOverwritesReady | worker/__main__.py:810-832 | a reachable run in which a published variant becomes FAILED by the timeout branch |
| Gaps.StoreFailureOverwritesReady | worker/transcoder.py:1172-1178 | a reachable run in which the storage sync's failure undoes READY |
| Gaps.MonitorOverwritesReady | cms/services/transcoder.py:718-781 | a reachable run with one worker in which the monitor, having seen the variant PROCESSING, turns READY into PENDING |
| Gaps.MirrorOverwritesReady | worker/transcoder.py:83-101 | a reachable run in which the exhaustion mirror, having read the variant in flight, turns READY into FAILED |
| Gaps.DoneOverwritesCancelled | shared/services/jobs.py:278-305 | a reachable run in which `mark_done` turns CANCELLED into DONE |
| Gaps.DoneOverwritesIff | shared/services/jobs.py:278-305 | its write loses a terminal status exactly when the job has become FAILED or CANCELLED since it was read |
| Gaps.UnguardedSkipsOwnership | worker/transcoder.py:685-695 | for either thumbnail source, a reachable run in which it is about to be published under a job the monitor has failed |
| Gaps.OwnedIffGuarded | worker/transcoder.py:1150-1166 | whatever other rules hold, the publications of a source are always under an active job exactly when it is neither a composed nor a webpage thumbnail and guard and commit are one step |
| Gaps.GuardWindow | worker/transcoder.py:1150-1166 | with a window between guard and commit, a variant of any source is published under a failed job |
| Gaps.CommitOwnedIff | worker/transcoder.py:207-236 | the ownership guard passes at the commit exactly when the job is active for this variant |
| Gaps.RetryRevives | worker/transcoder.py:239-258 | right after giving up on lost ownership a worker sets its failed job back to PENDING |
| Gaps.RetryRevivesIff | worker/__main__.py:974-987 | the retry write revives a terminal job exactly when no job is active for its variant |
| Gaps.SigtermOutranksLease | worker/__main__.py:810-832 | a worker whose lease another one holds still fails the job |
| Gaps.StaleRetryLosesJob | worker/__main__.py:974-987 | a retry write without the receipt leaves a PENDING job that nothing carries |
| Gaps.AbortUnlinksPublished | worker/transcoder.py:239-258 | an evicted worker removes the file its replacement has published |
| Gaps.RecaptureLosesFile | cms/routers/assets.py:2701-2718 | a recapture under a worker that has encoded leads to a READY variant without a file |
| Gaps.CmsUnlinksReady | cms/routers/profiles.py:460-470 | for any source, a reachable state in which the file of a READY variant that is neither superseded nor deleted has been unlinked and its row not yet touched |
| Gaps.ShutdownStrands | worker/__main__.py:770-809 | a shutdown after the handler recorded a failure leaves a job that nothing will pick up |
| Gaps.ShutdownStrandsCapture | worker/__main__.py:770-809 | a shutdown of any stream capture leaves a job that nothing will pick up |
| QueueWorker.QueueMode.constructor | worker/__main__.py:337-360 | receiving one message starts an attempt and hides the message under a new receipt |
| QueueWorker.QueueMode.RenewLease | worker/__main__.py:407-422 | the renewal succeeds only under the current receipt, hands out a new one, and otherwise declares the lease lost |
| QueueWorker.QueueMode.StampHeartbeat | worker/__main__.py:423-505 | the stamp is the protocol's: a row gone or terminal evicts, an active flagged one cancels, and only an active one is stamped |
| QueueWorker.QueueMode.StopTask | worker/__main__.py:536-556 | stopping the heartbeat leads into finalizing or into removing the message |
| QueueWorker.QueueMode.ReadRow | shared/services/jobs.py:248-258 | the unlocked read of a claim, and what the attempt makes of a missing or DONE row |
| QueueWorker.QueueMode.WriteRow | shared/services/jobs.py:260-275 | the UPDATE at the commit of a claim writes the columns that differ from what was read, unless the row is gone or the index refuses |
| QueueWorker.QueueMode.Bump | shared/services/jobs.py:258-275 | one more attempt and PROCESSING, or FAILED with the attempts used up |
| QueueWorker.QueueMode.ClaimRow | worker/__main__.py:558-581 | the claim's write is the protocol's claim step, poison and refusal included |
| QueueWorker.QueueMode.LatestJob | worker/transcoder.py:70-81 | the newest job of the same kind and target |
| QueueWorker.QueueMode.MustMirror | worker/imager_handlers.py:348-430 | the two mirrors, newest-job test first, decide to write exactly as the specification says |
| QueueWorker.QueueMode.ReadPoison | worker/__main__.py:580-609 | the reads of the poison branch are the protocol's step |
| QueueWorker.QueueMode.MirrorPoison | worker/transcoder.py:98-101 | the mirror's write by key is the protocol's step, also when the row is gone |
| QueueWorker.QueueMode.MustCancel | worker/__main__.py:611-648 | the pre-dispatch check sees a cancellation exactly when the row is flagged, or the asset of a transcode's variant, a capture or a synthesis is deleted |
| QueueWorker.QueueMode.CancelPending | worker/__main__.py:650-707 | the pre-dispatch cancel is the protocol's step: CANCELLED to the job, and to the variant only in flight |
| QueueWorker.QueueMode.ReadGuards | worker/transcoder.py:1018-1034 | the guards, read in their order, pick the step the protocol allows |
| QueueWorker.QueueMode.CommitVariant | worker/transcoder.py:1150-1166 | the READY write is the protocol's commit step, also when the row is gone |
| QueueWorker.QueueMode.RunBranch | worker/__main__.py:766-995 | the if-elif cascade picks the specified branch; timeout and terminal write FAILED to the job, cancel CANCELLED, retry PENDING, the others nothing; a failed retry is counted |
| QueueWorker.QueueMode.FinalizeAttempt | worker/__main__.py:763-995 | the finalize block as a whole is the protocol's finalize step |
| QueueWorker.QueueMode.MarkDone | shared/services/jobs.py:278-305 | the write of `mark_done` is the protocol's step, also when the row is gone |
| QueueWorker.QueueMode.RemoveMessage | worker/__main__.py:836-849 | the queue delete removes the message only under the current receipt, and the failure counter behind it goes up for a timeout or a terminal failure |
| Lease.Heartbeat | worker/__main__.py:404-420 | the loop renews at the specified times: at once, then every interval plus the cycle's other work |
| Lease.NeverLapsesIff | worker/__main__.py:341-349 | from receipt to stop the lease never lapses if and only if the first renewal is within 60 s, no cycle's other work exceeds 45 s, and the stop is within 60 s of the last renewal |
| Progress.Follow | worker/transcoder.py:1069-1117 | the reports written are exactly those that move on from the one written before; they grow by at least one, lie in 1..99 and number at most 99; the loop stops early only at a deletion or a lost row |
| Progress.FollowChunks | worker/transcoder.py:506-554 | the stored values are the rounded readings of exactly those chunks that move on from the one before, strictly increasing, and never above 99 |
| Progress.ReadingAt | worker/transcoder.py:1082-1086 | a marker at p percent of the duration reads as p, up to 99 |
| Progress.RoundedNear | worker/transcoder.py:1109-1109 | what is stored is a whole number of tenths within half a tenth |
| Drain.OldestIff | worker/transcoder.py:1268-1308 | the claim query takes the oldest PENDING row whose asset is not deleted |
| Drain.BooksBalance | worker/transcoder.py:1268-1308 | over any interleaving of drains, with recoveries while nobody works, each variant has one holder, and claims plus what is still open equals what was open plus what came back, per variant whose asset survives |
| Drain.DrainPartitions | worker/transcoder.py:1268-1308 | in such runs no variant that never came back is claimed twice, and at the end a surviving one was claimed once exactly if it was claimable |
| Drain.ClaimsBounded | worker/transcoder.py:634-642 | the number of claims is bounded by the claimable variants plus the returns to PENDING |
| Drain.DrainBoundedIff | worker/transcoder.py:109-120 | the number of claims is bounded if and only if no claimable variant is a stream |
| Drain.RecoverKeepsExclusiveIff | worker/transcoder.py:1184-1202 | a recovery leaves every holder alone on its variant if and only if there is no holder |
| Drain.RecoverSharesVariant | worker/transcoder.py:1184-1202 | a run from the start in which a second worker recovers and claims what the first one holds |
| Drain.ClaimsIncrease | worker/transcoder.py:1268-1308 | unless a stream is put back, one worker's drain claims in order of age, each variant once, only claimable ones, and each claim makes those one fewer |
| Drain.ListenWorker.ProcessPending | worker/transcoder.py:1268-1308 | one worker's loop claims the oldest claimable variant each time, leaves each row where its transcode puts it, and finishes exactly when nothing is claimable |
| Drain.ListenWorker.RecoverInterrupted | worker/transcoder.py:1184-1202 | every PROCESSING row goes back to PENDING, no other row changes |
| Captures.EndedIff | worker/transcoder.py:1205-1265 | for any outcome per turn, the oldest streams are captured, as many as turns have succeeded, and the loop has ended exactly when that is all of them |
| Captures.FailingBlocks | worker/transcoder.py:1257-1260 | a stream that keeps failing, and everything behind it, waits as long as it does |
| Captures.CaptureWorker.ProcessCaptures | worker/transcoder.py:1205-1265 | each turn tries the oldest stream, and a failure leaves the row as it was |
| Imager.MirrorSettles | worker/imager_handlers.py:348-430 | undisturbed, the mirror leaves its target in flight exactly when a newer job owns it, and touches no other target |
| ImagerLifecycle.PayloadLifecycle | worker/imager_handlers.py:272-288 | in every reachable state the payload is the original exactly while PROVISIONING and null exactly when READY or FAILED |
| ImagerLifecycle.ReadyImageIsVerified | worker/imager_handlers.py:867-961 | a READY image was built, with its original payload, from bytes with the hash read from the base row, which is a hash an import of that base was told to expect |
| ImagerLifecycle.ReadyBaseIsVerified | worker/imager_handlers.py:680-726 | a READY base row records the hash of the uploaded bytes, which is the expected hash of the import that committed |
| ImagerLifecycle.ProvenanceHolds | worker/imager_handlers.py:548-975 | the invariant behind the three above, over success, failure, retry, duplicates, mirrors and deletions |
| ImagerRules.PinnedBaseMatches | worker/imager_handlers.py:681-725 | if a failed base is imported again only when no attempt on it is left, a pinned READY row records exactly the pinned hash |
| ImagerRules.CommitMatchesPinIff | worker/imager_handlers.py:706-725 | a commit leaves a pinned row at its pinned hash exactly when the attempt expected that hash |
| ImagerRules.ReadyBlobMatches | worker/imager_handlers.py:862-875 | with one attempt per path, the stored blob of a READY base has the recorded hash |
| ImagerRules.ReadyImageStays | worker/imager_handlers.py:935-960 | with one attempt per image and no stale write of the exhaustion mirror, READY lasts until deletion and the stored output has the recorded hash |
| ImagerRules.LosesReadyIff | worker/imager_handlers.py:272-288 | without any rule, READY is lost exactly by deletion, by another attempt's terminal failure or by the write of a mirror that had read the image in flight |
| ImagerGaps.StaleImport | cms/routers/imager.py:738-752 | a reachable READY base row whose hash is not the one it is pinned to |
| ImagerGaps.DuplicateFailsReady | worker/imager_handlers.py:967-972 | a reachable step that turns a READY image FAILED |
| ImagerGaps.MirrorFailsReady | worker/imager_handlers.py:397-428 | a reachable run with one attempt per image in which the exhaustion mirror's stale write fails a READY image |
| ImagerWorker.Worker.SetBaseImageTerminal | worker/imager_handlers.py:257-269 | marks the row FAILED, or does nothing when it has vanished |
| ImagerWorker.Worker.SetProvisionedTerminal | worker/imager_handlers.py:272-288 | marks the row FAILED and clears its payload |
| ImagerWorker.Worker.MarkTargetFailedOnExhaustion | worker/imager_handlers.py:348-430 | undisturbed, result and tables are those of the specified mirror |
| ImagerWorker.Worker.ImportBaseImage | worker/imager_handlers.py:548-738 | succeeds exactly when the row is READY or disk, catalog, download, path and upload all allow it; fails for good exactly when, with disk, the catalog refuses, the download is fatal or its path malformed; a retry changes nothing, a terminal error only fails the row |
| ImagerWorker.Worker.ProvisionImage | worker/imager_handlers.py:741-975 | succeeds exactly when the image is READY or base, payload, disk, blob hash, build and upload all allow it; fails for good exactly when base or payload are unusable, or the blob has drifted or the build fails; same frame |
| Download.Downloader.DownloadWithSha | worker/imager_handlers.py:443-531 | at most six requests, all https to allowed hosts, never more than the expected size on disk, at most written / 64 MiB ticks; it succeeds if and only if the redirect walk ends within the limit in a stream with the expected hash and size, and fails for good if and only if hash or URL are bad, there are too many redirects, or a stream is too long or wrong |
| Download.Downloader.FollowRedirects | worker/imager_handlers.py:473-490 | the requests are the hops of the redirect chain, and a failure means no stream is within the limit |
| Download.Downloader.WriteStream | worker/imager_handlers.py:492-518 | the file is the stream, or a prefix that fits the expected size |
| Download.OneEnd | worker/imager_handlers.py:473-490 | a redirect chain ends at one request only |
| Download.FatalIff | worker/imager_handlers.py:463-531 | the answer at which the walk ends decides whether the failure is for good |
| RateLimit.ResetLimiter.ResetRatelimited | cms/ui.py:394-404 | one call changes its own bucket as specified and no other |
| RateLimit.WindowHoldsAtMostLimit | cms/ui.py:394-404 | every closed window, wherever it starts, holds at most the limit of accepted hits |
| RateLimit.RefusedIff | cms/ui.py:401-402 | a call is refused exactly when the window ending now already holds the limit, and then it holds exactly that many |
| RateLimit.KeysIndependent | cms/ui.py:396-396 | a bucket is what its own key's and address's calls make it |
| Registry.ConnectionRegistry.Add | local-broker/broker.py:151-154 | both dictionaries after an add |
| Registry.ConnectionRegistry.Remove | local-broker/broker.py:156-166 | both dictionaries after a remove, and the popped connection |
| Registry.ConnectionRegistry.ConnectionsForUser | local-broker/broker.py:168-170 | the user's indexed connections, each once |
| Registry.ByIdIsLive | local-broker/broker.py:151-166 | after any history the index by id holds exactly the live connections |
| Registry.RegistryIsLive | local-broker/broker.py:146-181 | with fresh ids both indexes agree, each user's list is exactly that user's live connections, and no user has an empty entry |
| Registry.AddKeepsIff | local-broker/broker.py:151-154 | an add keeps the indexes in agreement exactly when the id is not live under another user |
| Registry.ReusedIdMisroutes | local-broker/broker.py:151-173 | otherwise the first user's list names the second user's connection, and the first user outlives its removal |
| ScheduleAudit.WindowsOverlapIff | scripts/audit_schedule_conflicts.py:40-52 | the window test holds exactly when the two sets of minutes meet, overnight windows included |
| ScheduleAudit.DatesOverlapIff | scripts/audit_schedule_conflicts.py:62-69 | the date test holds exactly when nonempty ranges have a common date |
| ScheduleAudit.Audit | scripts/audit_schedule_conflicts.py:110-144 | the findings are each colliding pair once, with the devices it shares, and "clean" means there is none |
| ScheduleAudit.FindingsExact | scripts/audit_schedule_conflicts.py:120-144 | going bucket by bucket and pair by pair loses no pair and repeats none |
| ScheduleAudit.NothingReportedNoClash | scripts/audit_schedule_conflicts.py:110-144 | if nothing is reported, no device has two enabled equal-priority schedules active at one date and minute |
| ScheduleAudit.ReportedIsClashIff | scripts/audit_schedule_conflicts.py:130-144 | a reported pair really clashes exactly when some common date has a common weekday |
| ScheduleAudit.WeekLongIsClash | scripts/audit_schedule_conflicts.py:55-69 | a common week is enough for that |
| ScheduleAudit.MissedIff | scripts/audit_schedule_conflicts.py:97-108 | a pair goes unreported for failed tags calls exactly when one of the two is narrowed to a tag and the call failed for every device they share |
| ScheduleAudit.FailedCallsAddNothing | scripts/audit_schedule_conflicts.py:97-108 | failed tags calls never add a report |
| ScheduleAudit.CleanTrustedIff | scripts/audit_schedule_conflicts.py:97-108 | a clean verdict after failed calls is right exactly when no pair is hidden that way |
| ScheduleAudit.FailedTagCallHides | scripts/audit_schedule_conflicts.py:97-108 | one failing call hides a real clash behind a clean verdict |
| Signature.SignConnectionId | shared/wps_signature.py:20-35 | the header joins one entry per key, and an empty list raises |
| Signature.VerifySignature | shared/wps_signature.py:38-61 | the nested loops decide as `Decides` says, including where an entry that is not ASCII raises |
| Signature.DecidesOnce | shared/wps_signature.py:52-61 | that decision is unique |
| Signature.EntryIff | shared/wps_signature.py:46-50 | an entry is what follows the prefix, in any case, of a piece without the blanks around it |
| Signature.BlanksMakeNoDifference | shared/wps_signature.py:46-50 | a header with blanks around its entries is judged like the one without |
| Signature.RaisesIff | shared/wps_signature.py:52-61 | verification raises exactly when, for the first key, an entry that is not ASCII comes before any entry equal to the digest |
| Signature.NonAsciiRaises | shared/wps_signature.py:52-61 | a one-entry header that raises under every key |
| Signature.RoundTripIff | shared/wps_signature.py:20-61 | a header signed under one key list passes under another exactly when some key of each gives the same digest, and never raises |
| Signature.SignThenVerify | shared/wps_signature.py:20-61 | the same for the two loops run one after the other |
| Signature.VerifyWebhookSignature | local-broker/broker.py:237-268 | the broker's copy decides the same way, with its default key |
| Signature.CopiesAgree | local-broker/broker.py:220-266 | the copies sign alike exactly on nonempty lists, and verify alike on all |
| Text.SplitJoin | shared/wps_signature.py:35-48 | splitting undoes joining when no part holds the separator |
| Text.StripPadded | shared/wps_signature.py:47-47 | blanks around a string make no difference to it once stripped |
| Migration.WideningKeeps | alembic/versions/0046_hybrid_tag_timeline.py:59-121 | after 0046 every row meets the new constraints and plays as before |
| Migration.Schema.Upgrade47 | alembic/versions/0047_retire_slideshow_tag_rule.py:43-105 | the migration succeeds exactly when every rule's playback values are in the slide vocabulary, does what `Upgraded` says, and otherwise changes nothing |
| Migration.UpgradeKeepsConstraints | alembic/versions/0047_retire_slideshow_tag_rule.py:57-100 | positions stay unique, the kind/columns check holds, and there is one more slide per rule |
| Migration.UpgradeKeepsVocabulary | alembic/versions/0047_retire_slideshow_tag_rule.py:57-100 | all slides are in the vocabulary afterwards exactly when all slides and all rules were |
| Migration.RuleBecomesSlide | alembic/versions/0047_retire_slideshow_tag_rule.py:57-100 | each rule becomes one slide behind its slideshow's others, with its tag, order and playback, and nothing else is new |
| Migration.AnchorUnchangedIff | alembic/versions/0047_retire_slideshow_tag_rule.py:46-54 | the anchor a slideshow's cycle goes by, the rule's before and its own after, is unchanged exactly when there was no rule, the rule had an anchor, or the slideshow had none |
| Migration.CycleUnmovedIff | cms/services/slideshow_resolver.py:1240-1251 | at every moment the deck is as far into its cycle as before exactly when the anchor is unchanged or the new one is a multiple of the cycle's length |
| Migration.DeckAfter | alembic/versions/0047_retire_slideshow_tag_rule.py:57-100 | the resolved deck afterwards is what the slides gave before, then the rule's tag block |
| Migration.DeckUnchangedIff | cms/services/slideshow_resolver.py:464-579 | the resolved deck is unchanged exactly when the slideshow has no rule or its own slides resolved to nothing |
| Migration.LegacyTagDeckSurvives | alembic/versions/0045_slideshow_tag_rule.py:3-8 | where a slideshow with a rule has no slides, every deck is unchanged |

## Left out

- ffmpeg, Playwright, hashing, HMAC, blob storage and HTTP are nondeterministic outcomes or uninterpreted functions.
- Progress columns, error messages, timestamps and the voice announcement rows are not in the tables; the age of a heartbeat is one flag, `stale`, that time may set.
- The monitor's and the reconciler's batches are taken one row at a time. The lock on a picked job row is modelled by what the write requires of it, not by making others wait.
- The ORM leaves out columns set to the value read; that is modelled for the status in a claim, where it decides something, and elsewhere an assignment always writes.
- The exhaustion mirrors read the newest job and then the target; the two reads are one step.
- The import route's check of a failed base and its restart are one step, and so are the reads and writes of `recover_interrupted` in `Drain`.
- Queue messages do not expire: `send_message` leaves the default time to live (shared/services/jobs.py:220), after which the message of a PENDING job would vanish.
- Output files are present or absent: an encoder started with `-y` truncates a published file of the same name before it finishes, which is not modelled.
- Handlers other than the transcode handler are abstract in `Protocol`: any outcome, and for imager jobs any writes of the target's status; what those handlers do is the system of `Imager`, which has no queue.
- `Killed` allows a cancelled encoder to stop whenever the heartbeat asked for it, which is more than the code does.
- Malformed and legacy queue messages, the LISTEN/NOTIFY wiring of listen mode and `_drain_queue` would only add easy members.
- The outbox drainer's attempt limit is not modelled: a row may always be sent again.
- QueueWorker.QueueMode.FinalizeAttempt: the methods of this class change state step by step without interference between them; interleaving is a matter of the runs in `Protocol`.
- ImagerWorker.Worker.ImportBaseImage: the handler method is undisturbed by other attempts; interleaving is a matter of the runs in `Imager`. Scratch directories and the free-space sweep are one outcome, `enoughDisk`.
- ImagerWorker.Worker.ProvisionImage: the same; decoding the payload and building the image are outcomes.
- Imager rows drop columns that no decision reads, such as sizes, names and expiry; the EXPIRED status is set by no code.
- Captures.CaptureWorker.ProcessCaptures: is cut off after a given number of turns, because the loop of the source need not end. One worker runs it: the row lock is released before the capture starts (worker/transcoder.py:1248-1250), so two workers can capture one stream, which is not modelled.
- Drain.ListenWorker.ProcessPending: is cut off after the transcodes that its argument foresees, because the loop of the source need not end.
- Listen mode and queue mode are separate systems: `process_pending` and `recover_interrupted` are steps of `Drain`, not of `Protocol`.
- A variant has one output name. The start-up repair renames the row's file, so an encoder that began before it writes under the old name; in the model that is the same file, and only the rule of one undisturbed worker per variant keeps the two apart.
- A recapture resets the variants of its stream one at a time; the columns it clears on the asset are not in the tables.
- Stream captures and voice syntheses have no exhaustion mirror in the source, so their targets have no status in `Protocol`.
- Progress.Follow: a value whose commit fails in the capture loop counts as written, as it does for that loop.
- Progress.FollowChunks: rounding to one decimal is to the nearest tenth over real numbers, not over binary floating point.
- ScheduleAudit.Audit: times are minutes of the day and dates are day numbers; parsing and the fetching of schedules are not modelled.
- ScheduleAudit.NothingReportedNoClash: holds for the tags the calls returned; failed calls are the business of `MissedIff`.
- Registry.ConnectionRegistry.ConnectionsForUser: the order of a user's list is that of a set and not specified.
- Migration.Schema.Upgrade47: column types, indexes and foreign keys beyond the row constraints, and the columns that later migrations add, are not modelled.
- The rest of the CMS (rendering, routing, permissions), the composed renderer, the Pi-side scripts and the infrastructure are not part of this model.
