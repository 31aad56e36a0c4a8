# HEC: idempotent mutations, uploads and transports

HEC executes workstation operations for a remote caller whose requests may be delivered twice,
answered late, or cut off by a crash. This project models the parts of it that keep such
requests from taking effect twice or from corrupting what was published, and proves what they
promise:

* **State files** (`Register`, `DurableFile`): a small filesystem with separate visible and
  durable contents, the durable write that every state file goes through, and the register
  that abstracts one such file. The layers above only use the register.
* **Keyed mutations** (`MutationProtocol`, `KeyedDispatch`, `Prune`): the dispatch of a mutation
  under an idempotency key, once as a state machine over all interleavings, crashes and power
  losses, and once as the imperative program, whose every execution extends a run of that
  machine.
* **Keyed `job.start`** (`JobProtocol`, `JobRuns`, `JobLimits`, `JobEffects`, `JobAnswers`,
  `JobDispatch`, `JobEvidence`): job id and unit recorded before the launch, the launch mark, evidence, bounded
  retry, and migration of keys of older versions. A state machine with crashes, what holds over
  its runs, the exact limits of that, what one dispatch does as a function, that said
  case by case from what it finds, and the program that does it.
* **Locks** (`LockOrder`): digest locks and the legacy lock between dispatches and `job.forget`.
* **Uploads** (`Upload`, `UploadCalls`): chunks, finishes and aborts racing on one upload, and
  the calls themselves, each proved to be a stretch of a run of that race.
* **Transports** (`Transport`, `TransportCalls`, `Generation`, `Reconnect`): sessions under a
  mutex, an atomic flag and two kinds of `sync.Once`; the calls of the transport; one generation
  after another; the reconnect loop.
* **Requests** (`Base64`, `NameOrder`, `Requests`, `LegacyJob`): the normal form a key is bound
  to, and the request rebuilt from a stored job.
* **Small cores** (`OutputLimiter`, `Paging`, `ShellQuote`).

Concurrent code is a state machine with one step per access to shared state; sequential code
is imperative and proved against a specification; where a class runs the calls of a state
machine, its ghost fields hold the run it has been through, so the theorems about all runs apply
to it. What the operating system, systemd, the
native operation or another caller decides is a field of a step's `Choice`, of an `Environment`,
or of a script of outcomes, and the theorems quantify over it.

## Where the code promises more than it keeps

* The durable write returns an error when the directory cannot be synced after the rename, but
  its new contents are visible by then, and whoever reads them trusts them. For a keyed
  `job.start` this breaks the promise that a key stands for one job that runs once, in three
  ways. A launch mark may be trusted, its unit launched, and the mark lost to a power loss: the
  same unit starts twice. The first record may be left behind by a crash, used for a launch, and
  then lost: two units start under one key. And a completed record may be pruned, its job be
  forgotten, and then come back in progress: the unit starts again, or the start is recorded as
  failed after it ran. A power loss that takes a running unit with it makes that unit start
  again, or a failure be recorded after it ran; it never brings a second unit.
  `JobLimits` holds these runs and proves each promise of exactly the platforms without such
  faults. `JobRuns` proves the promises of every run, on any platform, whose power losses take
  back no launch mark and no running unit: writes that fail at any point and crashes of the
  process do no harm by themselves. That a dispatch launches at most twice, and that a migrated
  key keeps its unit, needs no condition at all.
* A stored job is rebuilt into a request that must match the public schema, which wants the
  names in `unset_env` to be distinct; the older start did not. `LegacyJob.LegacyRoundTripExactly`
  shows that this is the only case in which migration refuses the original request.

## Assumptions

* One process. JSON is a lossless codec and SHA-256 is injective on the values used, so a record
  stands for its file and a normal form for its hash. Random ids are fresh.
* A prune is one step and finds no lock in use; in the served process the call gate serialises
  whole dispatches. `job.forget` is one step while its key is idle.
* systemd refuses a unit name that is loaded, decides on acceptance within the launch, and keeps
  an accepted unit loaded until its `result.json` is durable or it is forgotten. Power losses
  that break the last part are the `unitLoss` case of `JobProtocol.Platform`; a run is spared
  them when every loaded unit has its result at each power loss.
* The directories of the state files exist and survive a power loss. The program creates one
  that is missing and does not sync its parent, so on first use a power loss may take the whole
  directory, and with it a file whose durable write returned no error.
* Removing an upload directory succeeds, and there is no crash between publishing an upload and
  removing it, nor in the middle of the removal. Elsewhere the process may crash.

## Model

| member | source | states |
|---|---|---|
| Register.OnlyWholePayloads | internal/hec/keyed_mutation.go:296-341 | over any history of write attempts and power losses only whole payloads that were there or were attempted can be found |
| Register.PublishedSurvives | internal/hec/keyed_mutation.go:327-341 | after a write without error no power loss brings back anything older |
| DurableFile.FileSystem.WriteFileDurable | internal/hec/keyed_mutation.go:296-341 | result and file contents for every combination of failing calls; at every moment the path holds the whole old or whole new contents; other files untouched; no temporary file left when its removal works |
| DurableFile.FileSystem.Prepare | internal/hec/keyed_mutation.go:301-326 | up to the close only a fresh temporary file changes, and on success it is synced and complete |
| DurableFile.FileSystem.Publish | internal/hec/keyed_mutation.go:327-341 | the rename makes the payload visible, and only the directory sync makes it safe |
| DurableFile.RecoveryTracks | internal/hec/keyed_mutation.go:320-341 | a power loss on the disk is a power loss of the register that tracks the file |
| DurableFile.RenamePublishes | internal/hec/keyed_mutation.go:327-330 | after the rename the old entry may still come back, the payload is whole either way |
| DurableFile.KeepsFiles | internal/hec/keyed_mutation.go:301-312 | writing a temporary file disturbs no other file, now or after a power loss |
| MutationProtocol.AtMostOnce | internal/hec/keyed_mutation.go:88-156 | over every interleaving, crash and restart the native operation runs at most once per key since its record was pruned, and then only records of that request can be found |
| MutationProtocol.RecordedBeforeExecution | internal/hec/keyed_mutation.go:143-147 | the native operation starts only under a durable in-progress record of its own request |
| MutationProtocol.RepliesAreTruthful | internal/hec/keyed_mutation.go:113-155 | every result in a reply, executed or replayed, is that of a real execution of this request under this key |
| MutationProtocol.OneCallerPerKey | internal/hec/keyed_mutation.go:88-97 | no two callers are ever between activation and deactivation with one key |
| MutationProtocol.PublishedIsFrozen | internal/hec/keyed_mutation.go:148-155 | once a completed record is published no other caller is about to complete it |
| MutationProtocol.StableReplay | internal/hec/keyed_mutation.go:113-131 | a published record changes under no step until it is pruned, and later callers get its result, a conflict, or a refusal |
| MutationProtocol.ExecutedIsReplayed | internal/hec/keyed_mutation.go:113-155 | once a caller is given the result of its execution, whoever arrives later gets that result for the same request, a conflict for another, or a refusal, until the record is pruned |
| MutationProtocol.ReadsAnswerExactly | internal/hec/keyed_mutation.go:113-127 | in every state, a caller that has read a record is answered a conflict for another request, an uncertain prior execution for its own in progress, and the stored result for its own completed |
| MutationProtocol.CorruptMeansFailedRead | internal/hec/keyed_mutation.go:99-102 | in every run a caller is told that the state is corrupt only if its own read of it failed |
| MutationProtocol.OneResultPerKey | internal/hec/keyed_mutation.go:113-155 | until the record of a key is pruned no two calls under it leave with different results or with results of different requests, whatever writes fail and power losses happen |
| MutationProtocol.CrashFreezes | internal/hec/keyed_mutation.go:143-151 | a crash between the two writes leaves exactly the in-progress record |
| MutationProtocol.OrphanStaysUncertain | internal/hec/keyed_mutation.go:123-127 | an orphaned in-progress record stays, is never pruned, and nothing runs under its key again |
| MutationProtocol.InvStep | internal/hec/keyed_mutation.go:88-179 | every step of a caller, crash and power loss keeps the invariant of the protocol |
| KeyedDispatch.KeyedMutationStore.DispatchKeyedMutation | internal/hec/keyed_mutation.go:88-156 | reply, state file, log and pruned records case by case; the execution extends a run of the protocol |
| KeyedDispatch.KeyedMutationStore.DispatchLocked | internal/hec/keyed_mutation.go:99-156 | what happens under the digest lock, in each case |
| KeyedDispatch.AnswersExactly | internal/hec/keyed_mutation.go:99-155 | each of the seven answers under the lock occurs exactly for these contents of the record and these outcomes of the writes |
| KeyedDispatch.WritesExactly | internal/hec/keyed_mutation.go:129-155 | the native operation runs exactly for a key without a record whose in-progress record was written; what is left on disk is its completed record, or the in-progress one if that write did not get through |
| KeyedDispatch.KeyedMutationStore.Activate | internal/hec/keyed_mutation.go:158-166 | enters the key exactly when it is not active |
| KeyedDispatch.KeyedMutationStore.Deactivate | internal/hec/keyed_mutation.go:168-172 | takes the key out of the active set |
| KeyedDispatch.KeyedMutationStore.NeverTwice | internal/hec/keyed_mutation.go:88-156 | after any number of calls no key has two executions since its record was pruned |
| KeyedDispatch.RetryReplays | internal/hec/keyed_mutation.go:113-122 | after an execution a retry returns its result to the same request and a conflict to another, and changes nothing |
| Prune.StateDirectory.PruneBestEffort | internal/hec/keyed_mutation.go:363-403 | removes exactly an oldest prefix of the records it may remove, with their locks; if every removal works, at most 4096 of all those the directory lists stay, none older than 30 days, and every other file stays |
| Prune.RemovesOldestPrefix | internal/hec/keyed_mutation.go:394-402 | the removal test selects a prefix in update order, no longer than the two rules ask |
| Prune.RemovedWereEligible | internal/hec/keyed_mutation.go:375-393 | only listed, completed records are removed, never the current one or an active one |
| Prune.RemovesOnlyPrunable | internal/hec/keyed_mutation.go:375-393 | what a prune removes is what a prune step of the mutation protocol may remove |
| Prune.CandidatesAreEligible | internal/hec/keyed_mutation.go:375-393 | a candidate is a listed, inactive, completed record with its update time |
| Prune.CandidatesAreComplete | internal/hec/keyed_mutation.go:375-393 | and every such record that the directory lists under its digest and `.json` is a candidate |
| Prune.PruneLeaves | internal/hec/keyed_mutation.go:394-402 | of the records in the directory that may be removed a prune leaves at most 4096, and none older than 30 days |
| JobRuns.BodyRunsOnce | internal/hec/keyed_job.go:17-68 | on every platform, in a run whose power losses take back no launch mark and no running unit, no unit starts twice and at most one body starts under a key since it was released |
| JobRuns.OneVisibleUnit | internal/hec/keyed_job.go:34-40 | in a run whose power losses take back no launch mark, all launches under a key since it was released name the id of its visible, marked record |
| JobRuns.VisibleFailureNeverRan | internal/hec/keyed_job.go:218-219 | in a run whose power losses take back no launch mark and no running unit and revive no older failure, a start visibly recorded as failed never ran |
| JobRuns.CrashesAreHarmless | internal/hec/keyed_job.go:17-68 | without power losses, however often the process crashes and whatever writes fail, all of that holds on every platform |
| JobRuns.LaunchIsRecorded | internal/hec/keyed_job.go:179-200 | in a run whose durable writes do not stop between rename and directory sync, every launch happens under a durable record that names and marks it |
| JobRuns.OneUnitPerKey | internal/hec/keyed_job.go:34-40 | in such a run all launches under a key since it was released name the id in its durable record |
| JobRuns.SyncedRestores | internal/hec/keyed_job.go:183-189 | in such a run no power loss takes back a launch mark |
| JobRuns.FailedStartNeverRan | internal/hec/keyed_job.go:218-219 | in such a run whose power losses find no unit running, a failed start that is recorded, or may be found after a power loss, never ran its body |
| JobRuns.MigrationKeepsItsUnit | internal/hec/keyed_job.go:277-334 | in every run, while a legacy mapping exists only the mapped job is launched under the key |
| JobRuns.AtMostTwoLaunches | internal/hec/keyed_job.go:191-216 | in every run at most two launches are made since the last dispatch arrived |
| JobRuns.SecondLaunchFollowsAbsence | internal/hec/keyed_job.go:200-216 | a second launch follows a first one that reported an error, answered looks only, and a unit that has a job directory but is neither loaded nor has a result |
| JobRuns.PublishedResultIsReplayed | internal/hec/keyed_job.go:266-275 | a completed record changes under no step until it is pruned or its job forgotten; later dispatches replay it, conflict with it, or are refused because it cannot be read, and launch nothing |
| JobRuns.LostResponseIsResolved | internal/hec/keyed_job.go:55-62 | from every state with an attempted record in progress and a visible unit, an undisturbed dispatch records the job as started in five steps and launches nothing |
| JobRuns.FirstStart | internal/hec/keyed_job.go:17-41 | from every reachable state without record and mapping, an undisturbed dispatch whose launch is accepted records a fresh job as started in seven steps, with one launch and one start |
| JobLimits.LaunchesAreRecordedExactly | internal/hec/keyed_job.go:179-200 | every launch in every run is durably recorded if and only if directory syncs cannot fail |
| JobLimits.OneUnitPerKeyExactly | internal/hec/keyed_job.go:34-40 | in every run all launches under a key name its durably recorded id if and only if directory syncs cannot fail |
| JobLimits.BodiesRunOnceExactly | internal/hec/keyed_job.go:17-68 | in every run no unit starts twice if and only if directory syncs cannot fail and a power loss takes no running unit |
| JobLimits.OneBodyPerKeyExactly | internal/hec/keyed_job.go:17-68 | in every run at most one body starts under a key since it was released, if and only if the same holds |
| JobLimits.FailedStartsNeverRanExactly | internal/hec/keyed_job.go:218-219 | in every run a start recorded as failed never ran, if and only if the same holds |
| JobLimits.UnsafeMark | internal/hec/keyed_job.go:183-200 | the run in which a launch mark is visible, not durable, and trusted |
| JobLimits.SyncFaultRunsTwice | internal/hec/keyed_job.go:55-67 | the run in which such a mark is lost and the unit starts twice |
| JobLimits.SyncFaultStartsTwoUnits | internal/hec/keyed_job.go:36-40 | the run in which an unsynced first record is used and lost, and two units start under one key |
| JobLimits.SyncFaultFailsAfterStart | internal/hec/keyed_job.go:266-273 | the run in which an unsynced completion is pruned, forgotten and lost, and a job that ran is recorded as failed |
| JobLimits.UnitLossRunsTwice | internal/hec/keyed_job.go:55-67 | the run in which a power loss takes the unit and it starts twice |
| JobLimits.UnitLossFailsAfterStart | internal/hec/keyed_job.go:191-219 | the run in which a power loss takes the unit, its launches are refused, and a job that ran is recorded as failed |
| JobProtocol.RecordedStep | internal/hec/keyed_job.go:17-334 | every step other than a power loss that takes back a launch mark keeps the visible record, the launches and the dispatch in agreement |
| JobProtocol.OnceStep | internal/hec/keyed_job.go:179-264 | every such step that takes no running unit either keeps each unit started at most once and findable |
| JobEffects.LaunchLoopExactly | internal/hec/keyed_job.go:191-219 | exactly when the loop launches zero, one or two times, is canceled, and records a failed start |
| JobEffects.LaunchesLeaveTheirRecord | internal/hec/keyed_job.go:179-220 | a dispatch launches at most twice, and one that launches leaves a marked record of the launched job and its request |
| JobEffects.FailureMeansTwoRefusals | internal/hec/keyed_job.go:196-219 | a start reported as failed was refused twice and its unit could not be seen |
| JobEffects.RetryLaunchesNothing | internal/hec/keyed_job.go:43-68 | after any dispatch that launched, one whose look at a visible unit is answered launches nothing and gives the same request that job, any other a conflict |
| JobAnswers.ResumesExactly | internal/hec/keyed_job.go:43-68 | a dispatch of a job in progress launches it if and only if it is not canceled and the job is unmarked and its mark is written, or it is marked, its unit cannot be seen and every look up to the deadline is answered; what it answers and leaves otherwise |
| JobAnswers.MissingDirectoryStaysUncertain | internal/hec/keyed_job.go:51-53 | a job in progress without its directory is answered as uncertain and neither launched nor changed |
| JobAnswers.RecordsAnswerExactly | internal/hec/keyed_mutation.go:99-125 | what any other record or an unreadable one is answered, and that it is left alone |
| JobAnswers.ImportsExactly | internal/hec/keyed_job.go:277-334 | the job of a legacy mapping is launched again if and only if it is the requested one, it was recorded, its unit cannot be seen, every look up to the deadline is answered, and the call is not canceled; what is answered and recorded otherwise |
| JobAnswers.StartsExactly | internal/hec/keyed_job.go:17-41 | a key without record and mapping launches a fresh job if and only if the job is prepared, recorded and marked and the call not canceled; what is left otherwise |
| JobAnswers.LaunchesAnswerExactly | internal/hec/keyed_job.go:191-220 | whatever led to a launch: a clean one, or one whose unit is seen, is answered and recorded as started; two that left no unit as failed; everything else stays in progress |
| JobAnswers.WindowsExactly | internal/hec/keyed_job.go:222-250 | a window settles absence exactly when each of its looks up to the deadline is answered, and finds a visible unit exactly when one of its looks is |
| JobDispatch.KeyedJobStore.DispatchJobStart | internal/hec/keyed_job.go:17-68 | reply, record, launches, job directories and what can be seen are those of the effect, in every case: replay, conflict, resume, import and its refusals, new job, failing preparation and writes |
| JobDispatch.KeyedJobStore.LaunchAndComplete | internal/hec/keyed_job.go:191-219 | the loop launches, replies and records as the effect says |
| JobDispatch.KeyedJobStore.WaitForEvidence | internal/hec/keyed_job.go:222-250 | the unit counts as found exactly when it can be seen and some poll is answered, and as absent exactly when it cannot, its directory is there and every poll up to the deadline is answered |
| JobDispatch.KeyedJobStore.Reconcile | internal/hec/keyed_job.go:43-68 | an attempted launch is looked for before anything is launched again; uncertain exactly when its directory is missing or the look or a launch stays undecided |
| JobDispatch.KeyedJobStore.ExecuteNew | internal/hec/keyed_job.go:17-41 | a fresh job is recorded before it is marked and launched, and discarded when it cannot be recorded |
| JobDispatch.KeyedJobStore.ImportLegacy | internal/hec/keyed_job.go:277-334 | what becomes of a legacy mapping in each case, and what is recorded |
| JobDispatch.KeyedJobStore.StartAndRetry | internal/hec/keyed_job.go:43-68 | two dispatches with a restart in between: once the first has started a body, an answered second one launches nothing, gives the same request that job and refuses any other |
| JobDispatch.KeyedJobStore.Restart | internal/hec/keyed_job.go:48-62 | a crash, with a harmless power loss or none, leaves a valid store |
| JobDispatch.KeyedJobStore.NeverTwice | internal/hec/keyed_job.go:17-68 | a valid store, on whatever platform and after any dispatches and restarts, has started no unit twice and one body at most under the key, launched the recorded job only, and records no failure of a job that ran |
| JobEvidence.AbsentExactly | internal/hec/job.go:386-438 | the inspection counts a unit as absent exactly under this condition, and as accepted whenever it is loaded or has a final result |
| JobEvidence.InspectsExactly | internal/hec/keyed_job.go:252-264 | an answered inspection accepts exactly the visible units and finds absent exactly the others with a directory |
| JobEvidence.InspectionExactly | internal/hec/job.go:386-438 | when an inspection fails or finds nothing, and what status it reports: the final result first, else what systemd says |
| JobEvidence.StatusExactly | internal/hec/job.go:423-490 | which states of a unit count as starting, running, completed, failed |
| JobEvidence.PollsAsInspected | internal/hec/keyed_job.go:231-249 | the two polling steps of the protocol do what such an inspection says |
| LockOrder.NoDeadlock | internal/hec/job.go:838-905 | as long as some dispatch or forget is unfinished some call can take a step |
| LockOrder.NoCyclicWait | internal/hec/keyed_mutation.go:88-97 | no chain of waits over digest locks and the legacy lock closes |
| LockOrder.WaitsUpwards | internal/hec/job.go:885-888 | whoever is waited for either waits for nobody or activated its key later |
| LockOrder.LegacyIsInnermost | internal/hec/keyed_job.go:282-286 | the holder of the legacy lock waits for nothing |
| LockOrder.LocksAreHeld | internal/hec/job.go:838-905 | in every run a call works under its own digest lock, reads the legacy mapping under the legacy lock, and an entry under the lock of that entry |
| LockOrder.ForgetVisitsItsListing | internal/hec/job.go:872-905 | a forget that was not cut off has, when its listing is used up, held the lock of every digest listed, except those it found active |
| LockOrder.InvStep | internal/hec/job.go:838-905 | every step keeps one holder per lock and the order between looks and activations |
| Upload.SingleConsumption | internal/hec/upload.go:342-437 | at most one finish or abort takes effect; two successes can only be finishes of one artifact |
| Upload.PublishedBytesNeverChange | internal/hec/upload.go:202-230 | once consumed, no late chunk changes the renamed inode, the copy or the artifact |
| Upload.OneArtifact | internal/hec/upload.go:342-367 | one artifact is ever made from an upload and every successful finish as artifact carries its handle |
| Upload.FinishedStaysReplayable | internal/hec/upload.go:342-364 | after promotion a later finish is answered with the artifact, before and under the lock |
| Upload.PublishedAsAnnounced | internal/hec/upload.go:291-303 | in every run, for any chunks, the renamed inode, the copy and every artifact has the announced size and the content of the announced digest |
| Upload.VerifiesExactly | internal/hec/upload.go:283-305 | a finish that found the metadata fails its verification exactly when size or digest differ from the announced |
| Upload.ChunksAreTakenExactly | internal/hec/upload.go:219-222 | a chunk that found the metadata is refused exactly when it begins beyond the end |
| Upload.ResumableUpload | internal/hec/upload.go:219-241 | agreeing chunks in any order keep the data a growing prefix, the byte count behind it, and after a sized finish the renamed inode, the copy or the artifact holds exactly the payload |
| Upload.AcknowledgedChunk | internal/hec/upload.go:223-232 | a chunk that is acknowledged has put exactly its payload at its offset |
| Upload.WriteAtExactly | internal/hec/upload.go:223-226 | a write at or before the end replaces its range and leaves no gap |
| Upload.ChunkRepliesAreTrue | internal/hec/upload.go:236-253 | a chunk's reply gives the end of the chunk and a size the data has not lost since |
| Upload.RecordedBytesSurvive | internal/hec/upload.go:233-243 | whatever a power loss leaves, the bytes up to the recorded size are those of the file, except where an unacknowledged write stored others over them |
| Upload.ResumableAfterPowerLoss | internal/hec/upload.go:233-243 | where all chunks agree with one payload, a power loss leaves the payload up to the recorded size |
| UploadCalls.UploadSession.UploadChunk | internal/hec/upload.go:202-255 | reply, bytes and recorded size in every case, short and failing writes included |
| UploadCalls.UploadSession.ChunkLocked | internal/hec/upload.go:210-255 | the same for a call that opened the file before other calls changed the upload |
| UploadCalls.UploadSession.UploadFinish | internal/hec/upload.go:341-406 | reply, destination, artifact and removal in every case, and `VerificationFailed` exactly when size or digest differ from the announced; a late finish as artifact is answered from the artifacts |
| UploadCalls.UploadSession.FinishLocked | internal/hec/upload.go:355-406 | the same for a call that opened the file before other calls consumed the upload, its verification included |
| UploadCalls.UploadSession.UploadAbort | internal/hec/upload.go:420-442 | removes the upload, or refuses and changes nothing |
| UploadCalls.UploadSession.FindArtifact | internal/hec/artifact.go:93-118 | finds an artifact of this upload, or none when there is none, or stops at one that cannot be read |
| UploadCalls.UploadSession.PerformAll | internal/hec/upload.go:202-442 | any script of calls has at most one effect, what it publishes has the announced size and digest, and where the chunks agree with one payload of the announced size, destination and artifact hold exactly that payload |
| UploadCalls.UploadSession.Announced | internal/hec/upload.go:291-303 | whatever calls it has been through, an upload was made into nothing but what was announced |
| UploadCalls.GoodChunkIsTaken | internal/hec/upload.go:219-253 | when nothing fails a chunk is taken exactly when it begins within the data or at its end; its range holds it, all else is as before, and the size is recorded |
| UploadCalls.GoodFinishPublishes | internal/hec/upload.go:355-406 | when nothing fails a finish of the announced data publishes that data and removes the upload |
| UploadCalls.LateCallsAnswerExactly | internal/hec/upload.go:342-350 | once the upload is gone a call changes nothing and is answered `NotFound`, or by the artifact made from it |
| UploadCalls.RetryFindsTheArtifact | internal/hec/upload.go:342-350 | a retry after a lost reply gets the handle of the first finish, and the artifact holds the uploaded bytes |
| Upload.InvStep | internal/hec/upload.go:177-442 | every step of every call, and a crash of the process, keeps lock, entries, consumption and replies in agreement |
| Transport.ClosedStaysEmpty | internal/hec/restartable_transport.go:101-130 | once closed the session table is empty and stays empty, whatever connects are under way |
| Transport.ReturnedCloseIsFinal | internal/hec/restartable_transport.go:156-172 | once a call of `Close` has returned the transport is closed and without sessions in every continuation |
| Transport.OnlyUnexpectedEndsAreReported | internal/hec/restartable_transport.go:123-130 | a session ended by a close or a cancel is never reported as a failure |
| Transport.InCloseStep | internal/hec/restartable_transport.go:156-172 | a call of `Close` returns only when the body of its once has finished |
| Transport.InvStep | internal/hec/restartable_transport.go:71-216 | every step of every goroutine keeps the invariant and moves the shared state forward |
| TransportCalls.RestartableTransport.Connect | internal/hec/restartable_transport.go:71-133 | adds a fresh session exactly when the transport is neither canceled nor closed and the library connects |
| TransportCalls.RestartableTransport.Close | internal/hec/restartable_transport.go:156-172 | closed, canceled, an empty table, every listed session shut, and no other touched |
| TransportCalls.RestartableTransport.PerformAll | internal/hec/restartable_transport.go:101-172 | in any script of calls, session ends and workers no connect after a close succeeds and no session is left, and what is reported ended by itself and had its worker run before any close |
| TransportCalls.RestartableTransport.ReportedEndWasUnexpected | internal/hec/restartable_transport.go:126-128 | a reported session ended by itself, before any close or cancel |
| TransportCalls.RestartableTransport.CloseOne | internal/hec/restartable_transport.go:200-216 | shuts a session once, whoever asks first |
| TransportCalls.ShutExactly | internal/hec/restartable_transport.go:200-216 | a session that was shut is done closing, and ended deliberately unless it had ended before |
| TransportCalls.RestartableTransport.CloseConnection | internal/hec/restartable_transport.go:226-232 | shuts one session and takes it out of the table |
| TransportCalls.RestartableTransport.RunWorker | internal/hec/restartable_transport.go:122-130 | reports the end of a session exactly when nobody had closed it or canceled the transport and the channel is free |
| Generation.GenerationsNeverOverlap | internal/hec/generation.go:129-213 | every transport but the newest is closed for good, without sessions and workers, and all are when a new one is built |
| Generation.SecondGeneration | internal/hec/generation.go:90-213 | the run in which a generation is cleaned up and a second one serves |
| Generation.SealedStep | internal/hec/restartable_transport.go:101-108 | no late step wakes a closed transport up |
| Reconnect.Run | internal/hec/generation.go:90-127 | how many rounds are retried, how the loop ends, and each delay from the streak of short generations, for every script of rounds |
| Reconnect.JitterBounds | internal/hec/generation.go:73-86 | a delay is at least its step, at most a quarter more, and never above ten seconds |
| Reconnect.RetriesExactly | internal/hec/generation.go:96-125 | another round follows exactly a failure that is not permanent, with the generation cleaned up and nothing canceled |
| Reconnect.BackoffExactly | internal/hec/generation.go:96-127 | after `m` rounds in a row that were healthy for less than 30 s the delay is that of step `m`, or the last |
| Reconnect.StepsExactly | internal/hec/generation.go:17-24 | those delays are a quarter, half, one, two, five and ten seconds |
| Base64.DecodeEncode | internal/hec/exec.go:199-211 | decoding the canonical encoding gives back every byte string |
| Base64.DecodesExactly | internal/hec/exec.go:204-210 | without line breaks, exactly the texts of whole groups with padding at the end only are accepted |
| Base64.AcceptsExactly | internal/hec/exec.go:204-210 | for all texts: exactly the well-formed ones with any line breaks put in are accepted |
| Base64.BreaksDoNotMatter | internal/hec/exec.go:204-210 | a line feed or carriage return anywhere changes nothing |
| Base64.EncodeDecoded | internal/hec/exec.go:204-210 | encoding a decoded text gives it back, up to the bits of its last symbol that no byte uses |
| Base64.SymbolsExactly | internal/hec/exec.go:204-210 | the 64 symbols are those of the standard alphabet, in its order |
| NameOrder.CanonicalExactly | internal/hec/keyed_mutation.go:780-799 | two lists of names have one canonical form exactly when they hold the same names |
| NameOrder.BeforeExactly | internal/hec/keyed_mutation.go:790-791 | names are sorted by their first difference, a prefix first |
| NameOrder.DedupeInPlace | internal/hec/keyed_mutation.go:790-798 | the loop that writes over the array it reads leaves the sorted names without duplicates |
| NameOrder.IncreasingIsUnique | internal/hec/keyed_mutation.go:791-798 | a sorted list without duplicates is determined by its names |
| Requests.BuildEnvironment | internal/hec/exec.go:213-247 | removals first, then additions, and exactly which names and values are refused |
| Requests.EnvironmentExactly | internal/hec/exec.go:213-247 | a variable of the process has the added value, or is absent if removed, or is inherited |
| Requests.EnvironmentAcceptedExactly | internal/hec/exec.go:213-247 | which environments are refused, name by name and value by value |
| Requests.Arguments.CanonicalizeEnvironment | internal/hec/keyed_mutation.go:780-799 | an empty environment becomes none and the names to unset a sorted list or none |
| Requests.Arguments.NormalizeRun | internal/hec/keyed_mutation.go:582-624 | computes the normal form of a `run`, or refuses it |
| Requests.Arguments.NormalizeJobStart | internal/hec/keyed_mutation.go:626-648 | computes the normal form of a `job.start`, or refuses it |
| Requests.RunsAcceptedExactly | internal/hec/keyed_mutation.go:582-624 | which `run` requests are accepted |
| Requests.JobsAcceptedExactly | internal/hec/keyed_mutation.go:626-648 | which `job.start` requests are accepted |
| Requests.RunProcessExactly | internal/hec/exec.go:38-99 | the process of an accepted `run`, with its defaults |
| Requests.JobProcessExactly | internal/hec/job.go:118-157 | the process of an accepted `job.start`, with its default |
| Requests.NormalRunKeepsMeaning | internal/hec/exec.go:38-99 | a normalised `run` starts the same process in every environment, is refused exactly when the original is, and is its own normal form |
| Requests.NormalJobKeepsMeaning | internal/hec/job.go:118-157 | the same for `job.start` |
| Requests.NormalRunIsCanonical | internal/hec/keyed_mutation.go:598-622 | two `run` requests have one normal form exactly when they differ in spelling and explicit defaults only |
| Requests.NormalJobIsCanonical | internal/hec/keyed_mutation.go:634-646 | two `job.start` requests have one normal form exactly when they differ in spelling only |
| LegacyJob.RebuildsStored | internal/hec/keyed_job.go:336-369 | the request rebuilt from a stored job is valid and differs from the original in spelling only |
| LegacyJob.RebuildsExactly | internal/hec/keyed_job.go:336-372 | a job directory stands for a request exactly under this condition on its specification and its standard input |
| LegacyJob.LegacyRoundTripExactly | internal/hec/keyed_job.go:336-372 | it normalises to the original's normal form exactly when no variable is named twice in `unset_env` |
| LegacyJob.MigratesExactlyMatching | internal/hec/keyed_job.go:297-303 | a legacy key accepts exactly the requests that match its job up to spelling, and none if the job named a variable twice in `unset_env` |
| OutputLimiter.LimitedOutputWriter.Write | internal/hec/exec.go:368-385 | what a write keeps, what is left and when the flag is set |
| OutputLimiter.SharedLimit | internal/hec/exec.go:349-397 | for any interleaving both lengths and the rest add up to the limit, buffers are prefixes of their streams, and the flag is exact |
| OutputLimiter.RunWrites | internal/hec/exec.go:79-81 | two writers on one limiter end up as the specification says |
| Paging.ReadRange | internal/hec/transfer_support.go:110-131 | returns the specified page of a file that may grow while it is read |
| Paging.ReadOutputRange | internal/hec/job.go:553-579 | returns the same page |
| Paging.PageExactly | internal/hec/transfer_support.go:110-131 | which bytes a page holds, and that it reports the end exactly if it reaches it |
| Paging.CollectsAPrefix | internal/hec/transfer_support.go:115-130 | following the next offset collects exactly the file up to that offset |
| Paging.WholeFileCollected | internal/hec/transfer_support.go:119-130 | once growth stops, length over limit further reads return the whole file and the last reports the end |
| ShellQuote.QuotingRoundTrip | internal/hec/terminal.go:169-171 | the shell reads a quoted string as one word equal to it |
| ShellQuote.LaunchCommandHasFourWords | internal/hec/terminal.go:180 | the terminal launch line has four words, whatever its paths contain |

## Left out

* The decoding and checking of a call's arguments before its state is touched, other than those of `run` and `job.start`.
* Calls that interleave, in the classes that run them: there one call runs at a time, next to calls that have only begun; the state machines interleave every step.
* A crash or a failing call inside `job.forget`, which is one step here.
* Two processes on one state directory, and the deletion of a lock file that another process waits on.
* A prune that interleaves with a forget holding the pruned key's lock; the call gate in front of the dispatcher rules it out.
* The call gate itself, its timeout and its panic recovery.
* Crashes between publishing an upload and removing its directory, where a retry makes a second artifact, and failing removals.
* The link-and-unlink fallback of publishing without replacing; a publish is one rename or one copy.
* Normal forms of the other keyed operations, which validate and clean paths and handles.
* How JSON, SHA-256, time stamps and file modes look; the 4 MiB limit on a state file is one more way for a write to fail before its rename.
* Rebuilding resource descriptors in a replayed result.
* The text of error messages, beyond which kind of failure is reported.
* Starting the worker of a session as a step of its own after the session was added to the table.
* The end of the tunnel client, beyond its place in the cleanup order; liveness beyond the stated bounds.
* The order in which variables are listed for a process; it is a function of the variables.
* Terminals, workspaces, skills, capabilities, directory archives and plain file operations.
