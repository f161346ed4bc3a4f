# DBVault: what its protocols keep

This project models the stateful parts of DBVault, a backup system made of a CLI, a few services, queue workers and a
scheduler, and proves what they keep over whole runs. Each part below is one group of modules.

**Physical PostgreSQL backup chains** (`JobRecords`, `BackupChain`, `ParentChoice`, `ChainInvariant`, `ChainRestore`, `ChainFits`, `ChainLimits`,
`ChainReexecution`, `IncrementalService`). A state machine over an evolving cluster (block number to content), the job rows, the archives
on disk and the cached manifests. `pg_basebackup --incremental` is a correct difference against the manifest it is
given; `pg_combinebackup` is an ordered fold of patches. The central theorem: whatever writes, full backups,
incrementals over any parent, retries, cancellations and file removals lie in between, restoring a successful physical
backup gives the cluster as it was when that backup dumped it, or an error that names what is missing. `ParentChoice` says
which backup an incremental is taken against. The theorem holds under two rules, which the programs themselves do not enforce: a job that reached SUCCESS is not executed again, and no
archive is written over another job's. What breaking either rule does is settled exactly. `ChainReexecution`: after one more
execution of a finished backup, which parent walks still end, and whether everything whose chain is on disk still restores.
`ChainLimits`: whether an archive may be written to a path. Both rest on `ChainFits`, which says of any store whatsoever when
all of its chains restore. Of the pipeline it is proved that the first rule holds of a job none of whose attempts is cut short after
its SUCCESS write, and which interruptions break it (`JobPipeline.SuccessRunsOnce`, `JobPipeline.SuccessMayBeReexecuted`,
`JobPipeline.StoppedSuccessIsReexecuted`).

**The Redis lease lock** (`LeaseLock`, `LeaseTiming`, `DistributedLocks`). N lock instances and one key with an expiry;
every request, its execution and its reply are steps of their own, and a refresh timer fires every half TTL. The
section that is exclusive is "`acquire` returned true until `release` is called". `LeaseTiming` gives the exact delays
under which a lease never lapses. The lock object and the scheduler's use of it are a class and a method over it.

**The job pipeline** (`JobPipeline`, `PipelineOutcomes`, `PipelineSteps`, `PipelineHandlers`, `PipelineScenarios`, `PipelineAttempts`,
`Admission`, `PipelineAdmission`). Orchestrator, backup worker with retries, storage worker, notification queue and the metadata
record, as interleaved steps any of which may be followed by an exception or a stop. `PipelineHandlers` is the handlers'
own code on an installation that starts out empty: submitting, cancelling, taking jobs from the queues, and handling
them, wherever a call inside throws. `PipelineScenarios` are four histories of it.
`PipelineAttempts` accounts for every execution of a job.

**Byte pipelines** (`Codecs`, `WalArchive`, `DumpPipeline`, `RestoreWorker`, `RestoreUseCase`). gzip, AES-256-GCM and
SHA-256 are parameters. Their laws are hypotheses of the theorems that need them: inverse and magic bytes (section 2.3.1
of RFC 1952), inverse and rejection (sections 7.1 and 7.2 of NIST SP 800-38D), and that GCM, being counter mode, encrypts
a prefix to a prefix.

**Keys** (`Keystore`, `KeyCustody`). A list with a cache over an encrypted file behaves as a map; the backup use case's
"pending" protocol on top of it.

**Small protocols with bounds** (`MetadataClients`, `StorageDefaults`, `PitrSelection`, `SingleFlight`).

## Where the code does not do what its comments or callers expect

- The worker writes IV and tag into `encryptionMetadata`; the CLI's restore reads `encryptionIv` and `encryptionTag`,
  which nothing in the backup path writes (`RestoreUseCase.WorkerRowsCannotBeDecryptedHere`).
- The checksum is taken before encryption and compared before decryption, so an encrypted backup is restored by the
  worker only with verification off (`RestoreWorker.VerifiedEncryptedRestore`).
- The first notification kept for a backup wins: one that announces a failed attempt stays although the retry succeeds
  (`PipelineOutcomes.AnnouncedAsSuccessExactlyWhen`, `PipelineScenarios.RetryAfterNotice`).
- A retry of a backup with a chosen name rewrites the file that has been uploaded, and its own upload is ignored because the
  queue knows the id; the record is successful and the object is another one (`PipelineScenarios.NamedRetry`).
- A storage attempt that read the record before a retry's SUCCESS write puts the metadata it had read back, for good: the backup
  has succeeded and everything is completed, but the record carries the metadata of the failed first attempt, its encryption
  metadata included (`PipelineOutcomes.MetadataStaysExactlyWhen`, `PipelineScenarios.LateRecordWins`).
- A backup that reached SUCCESS is executed again if its attempt is cut short after that write (`JobPipeline.SuccessMayBeReexecuted`,
  `JobPipeline.StoppedSuccessIsReexecuted`); it may then adopt its own child as parent (`ChainReexecution.AConcreteCycle`), and its
  children restore to what they took only under an exact condition (`ChainReexecution.ChildrenDecide`).
- The row of a PITR base names its archive relative to the storage root, and the restore opens that path as it stands, so the base is
  restorable only where the two coincide (`ChainRestore.PitrBaseIsRestorableExactlyWhen`).
- Making an unknown storage location the default removes the default it replaces (`StorageDefaults.MetadataService.PatchStorage`).
- `fetchWal` without the right key returns true and writes ciphertext (`WalArchive.WrongKeyYieldsTheFrame`).
- `getJob` recognises an unknown job only by the text "HTTP 404". The metadata service's 404 carries an error text of its own
  without it, so the lookup throws instead of answering null (`MetadataClients.AbsentExactlyWhen`). A rejection without a text
  is recognised, except when it answers the switch to the gateway in the last attempt, which loses the status
  (`MetadataClients.StatusIsHiddenExactlyWhen`).
- A caller that joins another's startup is told "ready" about the other's services (`SingleFlight.ReadyMeansReadyExactlyWhen`), and a
  startup timeout can name no service (`SingleFlight.ATimeoutMayNameNoService`).

## Model

| member | source | states |
|---|---|---|
| `ParentChoice.FirstPhysicalIsNewest` | src/services/postgres-incremental.service.ts:148-166 | Over any newest-first listing, whatever order it gives to simultaneous rows: the choice is a candidate, that is a successful PostgreSQL backup of the database with a level or a manifest cached or in its row, and no candidate started later; there is no choice only if there is no candidate. |
| `ParentChoice.RequestedParentIsTheParent` | src/services/postgres-incremental.service.ts:134-146 | A requested parent is the parent, one level below and with its base, or the backup is refused, in this order: if it is unknown or not successful, if it is of another database, if neither cache, archive nor row has its manifest. The listing plays no part. |
| `ParentChoice.NewestCandidateIsTheParent` | src/services/postgres-incremental.service.ts:148-227 | Without a request, or with an empty one, a newest candidate is the parent; the backup is refused exactly if there is none, or if no manifest is left of the one chosen. |
| `ParentChoice.FullBackupsAreRoots` | src/services/postgres-incremental.service.ts:207-221 | A backup that is not an incremental has no parent and is its own base at level 0, whatever is requested or listed. |
| `ChainInvariant.BeginChoosesAFinishedBackup` | src/services/postgres-incremental.service.ts:134-227 | In every consistent state a planned incremental has a finished physical backup of the same database as parent, one level lower and with the same base, and diffs against exactly the image that backup took. |
| `ChainInvariant.StepKeepsInv` | src/services/postgres-incremental.service.ts:207-312 | Every step of the programs, under the two rules, keeps parent links, levels, bases, manifests and archives in agreement and archive paths distinct. |
| `ChainInvariant.RunsKeepInv` | src/services/postgres-incremental.service.ts:207-312 | So every reachable state agrees, over any interleaving. |
| `ChainInvariant.RowSucceedsExactlyWhen` | src/microservices/backup-worker/index.ts:92-198 | In any state: a row is successful after a step exactly if the step wrote SUCCESS for it, or it was before and the step did not start, fail or cancel it. |
| `ChainRestore.ChainTo` | src/services/postgres-incremental.service.ts:319-329 | From every finished backup the parent links lead to a root without repeating an id, in `level + 1` members with levels 0, 1, 2, ..., one database, and the root is the target's base (or itself). |
| `ChainRestore.ChainIsUnique` | src/services/postgres-incremental.service.ts:319-329 | Any parent walk to that backup is that chain. |
| `ChainRestore.OverlayIsExact` | src/services/postgres-incremental.service.ts:355-358 | Patching the parent's image with a correct incremental gives the child's image. |
| `ChainRestore.CombineIsExact` | src/services/postgres-incremental.service.ts:355-358 | The root-first fold over the archives of a chain gives the image of its last backup. |
| `ChainRestore.WalkToRoot` | src/services/postgres-incremental.service.ts:319-329 | The loop returns the whole walk root first, exactly if all its records exist and are successful; otherwise it names one that is not. |
| `ChainRestore.Unpack` | src/services/postgres-incremental.service.ts:331-353 | All archives in chain order, or the first record whose archive is missing or not a physical one. |
| `ChainRestore.RestoreBackupChain` | src/services/postgres-incremental.service.ts:314-436 | A restore succeeds exactly if the target is a finished physical backup with all records successful and all archives on disk; then it yields the image taken, and a combine never fails. |
| `ChainRestore.TakenIsForever` | src/services/postgres-incremental.service.ts:236-266 | No later step of a run changes what a finished backup holds. |
| `ChainRestore.DumpIsHeld` | src/services/postgres-incremental.service.ts:236-266 | Between dump and SUCCESS an attempt holds the cluster of the moment of the dump, whatever is written meanwhile. |
| `ChainRestore.CommittedImage` | src/microservices/backup-worker/index.ts:93-113 | The image a backup holds after its SUCCESS write is the cluster at its dump, in every later state. |
| `ChainRestore.RestoreGivesBackTheDumpedCluster` | src/services/postgres-incremental.service.ts:221-358 | Over any run: the ordered combine along any parent walk to the backup is the cluster at the moment of its dump. |
| `ChainRestore.PitrBaseGivesBackTheDumpedCluster` | src/services/postgres-pitr.service.ts:437-540 | The same for a PITR base, whose row has neither level nor base. |
| `ChainRestore.PitrBaseIsRestorableExactlyWhen` | src/services/postgres-pitr.service.ts:495-532 | Over any run: a base is restorable at a later time if and only if the path in its row, relative to the storage root, opens its archive where the restore runs, and neither has its file been removed nor its row been failed or cancelled since. |
| `ChainFits.RestoresExactlyWhenAllFit` | src/services/postgres-incremental.service.ts:319-358 | For any store, however it came about: all chains on disk restore to what their last backups took if and only if every archive that ends such a chain fits, which means full and equal for a root, otherwise an incremental that overlays its parent's image to its own. |
| `ChainLimits.OverwriteIsHarmlessExactlyWhen` | src/services/postgres-incremental.service.ts:230-266 | After any archive written to any path, by a full or incremental dump, a logical dump or a PITR base: finished backups keep row and image, and all whose chains are on disk still restore as taken if and only if the new archive fits each of them stored there. |
| `ChainLimits.FullDumpIsHarmlessExactlyWhen` | src/services/postgres-incremental.service.ts:230-266 | For a full dump that is: only roots are stored at the path, and the cluster is what they took. |
| `ChainLimits.IncrementalDumpIsHarmlessExactlyWhen` | src/services/postgres-incremental.service.ts:230-266 | For an incremental: each backup stored at the path has a parent whose image this delta turns into its own. |
| `ChainLimits.FullDumpOverAnIncrementalBreaksTheChain` | src/services/postgres-incremental.service.ts:230-266 | A full archive written over an incremental makes every restore through it fail. |
| `ChainReexecution.WalkEndsExactlyWhen` | src/microservices/backup-worker/index.ts:92-198 | Any finished backup is executed once more, from any consistent state, with any listing, requested parent, path and cluster: the parent walk from any finished backup ends if and only if that backup does not descend from it, or the new plan has no parent, or the new parent does not descend from it. |
| `ChainReexecution.ReexecutionIsHarmlessExactlyWhen` | src/microservices/backup-worker/index.ts:92-198 | And everything whose chain is on disk restores, the executed backup to its new image and all others to what they took, if and only if the archives of its children, and its new archive in the place of whatever else is stored at that path, still fit. |
| `ChainReexecution.ChildrenDecide` | src/microservices/backup-worker/index.ts:92-198 | If nothing else is stored at that path, that is: the unchanged archive of each child whose chain is on disk turns the cluster of the new execution into the image the child took. |
| `ChainReexecution.ReexecutedBackupAdoptsItsChild` | src/microservices/backup-worker/index.ts:92-198 | An incremental whose child is the newest backup takes that child as parent when it is executed again, and no chain ends at it any more. |
| `ChainReexecution.AConcreteCycle` | src/microservices/backup-worker/index.ts:92-198 | Three concrete backups in a consistent store for which that happens. |
| `IncrementalService.PostgresIncrementalService.PerformIncrementalBackup` | src/services/postgres-incremental.service.ts:207-312 | Without a plan everything is as it was; otherwise the effect is the plan step, which caches the parent's manifest, then the dump step, or nothing more when pg_basebackup fails, or only the new cached manifest when packing fails. An incremental's parent is the requested one or else a newest candidate. The fields returned are those of the SUCCESS row, and the invariant is kept under the rules on every exit. |
| `LeaseLock.StepKeepsInv` | src/lib/distributed-lock.ts:35-200 | Every step of clients, Redis and network keeps the protocol invariant. |
| `LeaseLock.RunsKeepInv` | src/lib/distributed-lock.ts:35-200 | So does every run of any number of clients. |
| `LeaseLock.SectionOwnsTheKey` | src/lib/distributed-lock.ts:35-67 | Between acquire returning true and release being called, an instance whose last applied SET or EXPIRE is younger than the TTL owns the stored key. |
| `LeaseLock.MutualExclusion` | src/lib/distributed-lock.ts:35-166 | Two such instances are the same instance. |
| `LeaseLock.ALapsedHolderCanBeJoined` | src/lib/distributed-lock.ts:41-56 | The lease condition is needed: after a lapse any fresh instance can enter while the first is still inside. |
| `LeaseLock.HeldOutlivesTheKey` | src/lib/distributed-lock.ts:84-121 | `isHeld()` is still true after the release script has deleted the key. |
| `LeaseLock.HeldOnlyAroundTheSection` | src/lib/distributed-lock.ts:74-128 | But over any run it is true only in the section or while `release` is under way. |
| `LeaseLock.OnlyTheOwnerTouchesALiveKey` | src/lib/distributed-lock.ts:84-158 | No release deletes and no refresh extends an entry another instance stored. |
| `LeaseLock.AStalledHolderBlocksAtMostOneTtl` | src/lib/distributed-lock.ts:41-46 | A holder none of whose refreshes is applied any more does not own the key one TTL after the last applied one. |
| `LeaseTiming.TheLeaseNeverLapses` | src/lib/distributed-lock.ts:172-194 | If no refresh call ends in an error, and reply latency plus first-tick delay, and every later tick's delay, are below half the TTL, an instance in its section owns the key over any number of refreshes. |
| `LeaseTiming.AtMostOneDispatches` | src/microservices/scheduler-service/index.ts:244-389 | Then, again with no refresh call ending in an error, two scheduled runs of one database are never in their dispatch at once. |
| `LeaseTiming.LooseBoundsLetALeaseLapse` | src/lib/distributed-lock.ts:172-194 | Those bounds are exact: if they do not hold, a run that keeps them lets a lease lapse inside its section. |
| `LeaseTiming.AStoppedLeaseRunsOut` | src/lib/distributed-lock.ts:180-200 | Once a refresh has failed and those under way are done, the key is gone at the latest one TTL after the last applied renewal, while the section goes on until its instance releases. |
| `LeaseTiming.OneErrorLetsALeaseLapse` | src/lib/distributed-lock.ts:180-200 | However tight the bounds, some run that keeps them lets a lease lapse inside its section after a single refresh error. |
| `DistributedLocks.DistributedLock.Acquire` | src/lib/distributed-lock.ts:35-67 | True or false as no live key or one was there; an error throws and leaves the object fresh, and when only the reply was lost, the lease stays behind without a holder. Fields and key become those of the protocol steps. |
| `DistributedLocks.DistributedLock.Refresh` | src/lib/distributed-lock.ts:134-166 | Renews the key exactly if it still holds this object's value and the request arrives; true exactly if the reply arrives too. |
| `DistributedLocks.DistributedLock.OnTimer` | src/lib/distributed-lock.ts:180-200 | A refresh that fails for any reason marks the lock lost and stops the timer, even if the key was renewed; a successful one renews key and timer. |
| `DistributedLocks.DistributedLock.Release` | src/lib/distributed-lock.ts:74-128 | Deletes the key exactly if it holds this object's value and the request arrives; stops the timer and forgets the value on every path. |
| `DistributedLocks.ExecuteScheduledBackup` | src/microservices/scheduler-service/index.ts:235-389 | Skips exactly if the lock is taken, gives up if acquiring throws, releases on every path without touching a key another instance stored meanwhile; the status the schedule records for every combination of calls that throw. |
| `JobPipeline.QueueAndRecordAgree` | src/microservices/backup-worker/index.ts:61-198 | With no lost metadata write, stop or cancellation: a completed queue job has a SUCCESS record and one that used up its attempts a FAILED one, also when the failure came after the SUCCESS write. |
| `JobPipeline.SuccessIsNotifiedLast` | src/microservices/backup-worker/index.ts:92-272 | Over all retries, stops and cancellations: at most one notification per backup id, and a success notice of an S3 backup only after the SUCCESS write and the recorded upload. |
| `PipelineOutcomes.FirstNoticeWins` | src/microservices/backup-worker/index.ts:181-192 | Once a notification of an id is kept, whatever is offered later is ignored. |
| `PipelineOutcomes.AnnouncedAsSuccessExactlyWhen` | src/microservices/backup-worker/index.ts:117-192 | Over all runs: a finished job's kept notification says success if and only if no failed attempt announced itself before the success was first offered, and failure otherwise. |
| `PipelineOutcomes.CompletedUploadIsRecorded` | src/microservices/backup-worker/index.ts:214-257 | However often storage attempts stopped part-way, and under whatever names, once one completes the record names the object and it exists. |
| `PipelineOutcomes.UploadIsFaithfulExactlyWhen` | src/microservices/backup-worker/index.ts:214-257 | Then some attempt of the job uploaded its file, and the object equals the file from there on if and only if no later step writes other bytes to that path or uploads other bytes under that name. |
| `JobPipeline.FreshNamesKeepUploads` | src/microservices/backup-worker/index.ts:214-257 | With archives under timestamped names of their own, which is what a backup without a chosen name gets, that never happens: a completed upload is the local file. |
| `JobPipeline.StorageKeepsWorkerMetadata` | src/microservices/backup-worker/index.ts:246-253 | Storage attempts change no metadata but their own key, if no SUCCESS write falls between an attempt's read and write. |
| `PipelineOutcomes.MetadataStaysExactlyWhen` | src/microservices/backup-worker/index.ts:214-253 | Over all runs: the record carries all along what the backup worker last left in it, but for the upload's own key, if and only if no storage attempt writes back worker metadata it had read before a SUCCESS write changed them. |
| `PipelineOutcomes.SettledStays` | src/microservices/backup-worker/index.ts:55-285 | Once neither worker has anything left to do for a job, its metadata never change again. |
| `PipelineScenarios.LateRecordWins` | src/microservices/backup-worker/index.ts:214-253 | A history without a lost write, a stop or a cancellation, from an empty installation: the retry succeeds, both queue jobs are completed, and the record carries the first attempt's metadata, for good. |
| `JobPipeline.SuccessMayBeReexecuted` | src/microservices/backup-worker/index.ts:147-198 | An exception after the SUCCESS write, whether or not the upload is queued by then, turns the record FAILED if attempts are left, and the job is picked again. |
| `JobPipeline.StoppedSuccessIsReexecuted` | src/microservices/backup-worker/index.ts:92-198 | A worker that stops there puts the job back, whatever attempts are left. |
| `JobPipeline.SuccessRunsOnce` | src/microservices/backup-worker/index.ts:92-198 | Over all runs: a job none of whose attempts was cut short in those two ways is never picked or queued again once it has written SUCCESS. |
| `PipelineAttempts.BackupAttemptsAreBounded` | src/lib/queue-manager.ts:37-56 | Over all runs: a backup job is given up exactly when its failed attempts reach the limit, and is then never taken again; every time it was taken is one of its failed attempts, a stop of the worker that held it, or the present or completed execution. So it is executed at most as often as limit and stops together. |
| `PipelineAttempts.UploadAttemptsAreBounded` | src/lib/queue-manager.ts:77-95 | The same for upload jobs and their own limit. |
| `PipelineHandlers.Programs.WorldIsInOrder` | src/microservices/backup-worker/index.ts:55-285 | From an empty installation, after any sequence of submissions, cancellations, taken jobs and handler executions: notices come at most once per id and after SUCCESS write and recorded upload, and undisturbed histories leave queue and record in agreement. |
| `PipelineHandlers.Programs.FinishedJobs` | src/microservices/backup-worker/index.ts:55-285 | After any such sequence, every finished job is announced and every completed upload is recorded. |
| `PipelineHandlers.Programs.HandleBackupJob` | src/microservices/backup-worker/index.ts:55-199 | Completes exactly if the service answered with success and no call threw; record, files, queue, upload and notices for every call that may throw, including one after the enqueue, when the attempt counts as failed although its upload or success notice is queued. Every execution is a run of the state machine. |
| `PipelineHandlers.Programs.HandleStorageJob` | src/microservices/backup-worker/index.ts:205-285 | Object store, record, notices and queue after one execution, for every call that may throw, including one after the notice; an upload the record already names is not repeated. |
| `PipelineHandlers.Programs.PostBackup` | src/microservices/backup-orchestrator/index.ts:136-222 | A full queue is answered without a record; an accepted job is the one more that waits, within the limit; a failed enqueue leaves a record without a queue job, FAILED unless that write failed too. |
| `PipelineHandlers.Programs.DeleteBackup` | src/microservices/backup-orchestrator/index.ts:282-314 | An unknown id, or a lookup that throws, is answered with an error and changes nothing. Otherwise a job no worker holds leaves the queue, unless that call throws, which is ignored, and the record is cancelled; if that write throws, the answer is an error although the job has left. Each outcome is one step of the state machine. |
| `PipelineScenarios.BackUpToS3` | src/microservices/backup-worker/index.ts:55-285 | A history from an empty installation in which both workers run: record successful, object stored, success announced. |
| `PipelineScenarios.RetryAfterNotice` | src/microservices/backup-worker/index.ts:181-192 | A history in which a backup succeeds on its retry and stays announced as failed. |
| `PipelineScenarios.NamedRetry` | src/microservices/backup-worker/index.ts:93-147 | A history in which a retry under a chosen name writes its file anew after the upload: the successful backup's object is not its file. |
| `Admission.WaitingIsBounded` | src/microservices/backup-orchestrator/index.ts:136-185 | With at most n overlapping handlers, first-attempt waiting jobs never exceed the limit plus n - 1. |
| `Admission.BoundIsAttained` | src/microservices/backup-orchestrator/index.ts:136-185 | For every n and limit some run of the counters reaches that number. |
| `PipelineAdmission.RunsAreCounted` | src/microservices/backup-orchestrator/index.ts:136-222 | Every run of the pipeline together with its submitting handlers is a run of those counters. |
| `PipelineAdmission.WaitingJobsAreBounded` | src/microservices/backup-orchestrator/index.ts:136-185 | So on the pipeline itself, with retries, stops and cancellations, the jobs that wait for their first attempt never exceed the limit plus n - 1. |
| `WalArchive.FetchAfterArchive` | src/services/postgres-pitr.service.ts:301-425 | What a fetch with the archive's own key setting returns, for every segment and setting. |
| `WalArchive.RoundTripExactly` | src/services/postgres-pitr.service.ts:301-425 | It is the segment if and only if compression is on, or the segment does not unzip to other bytes and is not empty under a key (an empty one comes back only if its bare frame happens to unzip to nothing). |
| `WalArchive.KeyAddedLater` | src/services/postgres-pitr.service.ts:407-425 | A key added only after archiving changes nothing, unless the stored bytes are a well-formed frame under that very key. |
| `WalArchive.WrongKeyYieldsTheFrame` | src/services/postgres-pitr.service.ts:393-418 | With a lost or wrong key the ciphertext frame is handed out. |
| `WalArchive.UnframeInvertsFrame` | src/services/postgres-pitr.service.ts:318-412 | Cutting IV, tag and ciphertext out of a frame and decrypting gives the content back, except that of an empty one. |
| `WalArchive.PathsAreInjective` | src/services/postgres-pitr.service.ts:363-364 | Different databases or different WAL names have different object paths, as long as file names have no slash. |
| `WalArchive.SuffixTestIsNameEquality` | src/services/postgres-pitr.service.ts:277-290 | Among archived files, a path ends with a 24-hex-digit segment name exactly if the file has that name. |
| `WalArchive.SkippedExactlyWhenListed` | src/services/postgres-pitr.service.ts:277-338 | Whatever else is archived in its directory and however complete the listing: an archive call for a segment skips it exactly if the segment's own object is listed; otherwise it stores the encoded segment there if the upload works, and nothing if not. |
| `WalArchive.NewSegmentsAreStored` | src/services/postgres-pitr.service.ts:277-338 | With a complete listing and a working upload the segment is in the archive afterwards, with its first content if it was there before and with this one if it was not; all else is as it was. |
| `WalArchive.FirstContentStays` | src/services/postgres-pitr.service.ts:277-338 | Over any sequence of archive calls with complete listings, an object keeps the content first stored. |
| `WalArchive.ContentStaysExactlyWhen` | src/services/postgres-pitr.service.ts:277-338 | For any sequence of archive calls and whatever their listings return: an object keeps its content all through if and only if no call gets past its listing and uploads other bytes to it. |
| `WalArchive.FetchReturnsTheFirstContent` | src/services/postgres-pitr.service.ts:277-425 | A fetch after any number of further archive calls returns the bytes of the first. |
| `WalArchive.FirstMatchMatches` | src/services/postgres-pitr.service.ts:376-378 | The fallback finds a file exactly if some listed path ends with the name, and finds such a one. |
| `WalArchive.SegmentIsLocatedByName` | src/services/postgres-pitr.service.ts:373-389 | With a complete listing of archived files, a segment is located exactly if a file of that very name is stored, and that is what is read. |
| `WalArchive.PostgresPitrService.ArchiveWal` | src/services/postgres-pitr.service.ts:248-357 | The loop over the listing, the encoding and the upload change the store as one archive call does. For a segment and a listing of archived files: true exactly if its own object was listed or the upload worked, and the store is changed at its own path only, exactly if it was not listed. |
| `WalArchive.PostgresPitrService.FetchWal` | src/services/postgres-pitr.service.ts:359-435 | Returns the decoded object of the located path, or nothing. |
| `DumpPipeline.EncryptionTransform.Transform` | src/microservices/database-services/mongodb/service.ts:57-108 | Each chunk extends the ciphertext of everything fed so far. |
| `DumpPipeline.PerformBackup` | src/microservices/database-services/mongodb/service.ts:197-376 | For any chunking: refused exactly for a missing key or one that is not 64 characters long, otherwise file and row are those of the undivided dump; the row's size is the file's, and without encryption its checksum too. |
| `RestoreWorker.HandleRestoreJob` | src/microservices/backup-worker/restore.worker.ts:33-170 | The stages as executed end as the stage-by-stage definition says; the exact conditions under which an unknown id, a lookup that throws, a missing S3 location, a failed download and a missing file are reported. |
| `RestoreWorker.PlaceDoesNotMatter` | src/microservices/backup-worker/restore.worker.ts:50-105 | A job that names a backup decodes the content S3 delivers, whatever lies on the local disk, or else the file at the path, or else the one of the recorded name, in each case by the backup's record. |
| `RestoreWorker.DamageIsNoticedExactlyWhen` | src/microservices/backup-worker/restore.worker.ts:111-127 | From wherever it comes, a content is refused for its checksum exactly if verification is on, a digest is recorded, and that of the content is another. |
| `RestoreWorker.ChangedBackupsAreRefused` | src/microservices/backup-worker/restore.worker.ts:111-127 | So an unencrypted backup whose stored bytes have another digest than those written is refused with verification on. |
| `RestoreWorker.KeyIsMissedExactlyWhen` | src/microservices/backup-worker/restore.worker.ts:130-140 | An encrypted backup that passes verification, or skips it, is refused for want of a key exactly if neither caller nor environment brings a nonempty one. |
| `RestoreWorker.UnencryptedRoundTrip` | src/microservices/backup-worker/restore.worker.ts:111-170 | Unencrypted, verified or not: the service receives the dump if and only if it was zipped or does not unzip to something else. |
| `RestoreWorker.EncryptedRoundTrip` | src/microservices/backup-worker/restore.worker.ts:111-170 | Encrypted, with the right key and verification skipped: the same. |
| `RestoreWorker.VerifiedEncryptedRestore` | src/microservices/backup-worker/restore.worker.ts:111-152 | Encrypted with verification on: restored only if ciphertext and plaintext have the same digest; otherwise a checksum error. |
| `RestoreWorker.KeyForAnUnencryptedBackup` | src/microservices/backup-worker/restore.worker.ts:130-152 | Passing a key for an unencrypted backup makes the restore fail. |
| `RestoreWorker.BackupThenRestore` | src/microservices/database-services/mongodb/service.ts:296-376 | From the dump's chunks through backup and restore to the bytes handed over, encrypted or not, and with the file in S3, at its path or in the backup directory, whatever else lies on the local disk. |
| `RestoreUseCase.DecodeStages` | src/application/use-cases/restore.use-case.ts:193-248 | Verification, decryption and decompression yield what the definition says, and add only registered temporary files. |
| `RestoreUseCase.RunStages` | src/application/use-cases/restore.use-case.ts:48-296 | Result of the try block: unknown id, S3 and local artifacts, given and recorded paths; every file created is registered. |
| `RestoreUseCase.Resolve` | src/application/use-cases/restore.use-case.ts:165-185 | Of the recorded places of a local artifact the first that exists is taken. |
| `RestoreUseCase.Execute` | src/application/use-cases/restore.use-case.ts:36-310 | The result for every request and every behaviour of the outside, refusals in the source's order, and on every exit the file system is exactly what it was. |
| `RestoreUseCase.SourceExactly` | src/application/use-cases/restore.use-case.ts:36-191 | Which bytes are decoded: the download for an S3 backup, whatever path is given; else the given path; else the first recorded place that exists. And the exact condition of each refusal before that. |
| `RestoreUseCase.DecodeRefusesExactlyWhen` | src/application/use-cases/restore.use-case.ts:193-235 | A wrong digest is refused exactly if verification is on and nothing looks encrypted: row, file name, or a passed key; what looks encrypted is refused exactly if no key is passed and the keystore has none for a named backup. |
| `RestoreUseCase.RestoredExactlyWhen` | src/application/use-cases/restore.use-case.ts:250-310 | The database receives the decoded bytes exactly if this is no dry run, a database is connected and its adapter succeeds; a dry run passes without a database exactly if the artifact decodes. |
| `RestoreUseCase.WorkerRowsCannotBeDecryptedHere` | src/application/use-cases/restore.use-case.ts:209-235 | No key decrypts a backup whose row the backup worker wrote. |
| `RestoreUseCase.RowsWithIvColumnsDecode` | src/application/use-cases/restore.use-case.ts:209-248 | With IV and tag in the columns read here, the right key gives back the dump under the same condition as for the worker. |
| `RestoreUseCase.UnencryptedRowsDecode` | src/application/use-cases/restore.use-case.ts:193-248 | So do unencrypted rows with verification on, if nothing makes the artifact look encrypted. |
| `Keystore.PutIsUpdate` | src/lib/key-manager.ts:148-177 | Adding is map update and keeps ids unique. |
| `Keystore.PutKeepsKeyIds` | src/lib/key-manager.ts:148-177 | The new entry brings its key and columns, but a key id that was there, if not empty, stays. |
| `Keystore.WithoutIsRemoval` | src/lib/key-manager.ts:190-201 | Deleting is map removal, and the list shrinks exactly if the id was there. |
| `Keystore.MergeIsUnion` | src/lib/key-manager.ts:250-275 | Importing is union with existing entries winning, without duplicates, whatever the imported list repeats. |
| `Keystore.KeyManager.LoadKeystore` | src/lib/key-manager.ts:73-122 | Loading caches what is on disk and changes no entry; a missing or unreadable file becomes an empty one. |
| `Keystore.KeyManager.SaveKeystore` | src/lib/key-manager.ts:124-144 | Cache and decrypted file agree afterwards; an existing master key is kept. |
| `Keystore.KeyManager.AddKey` | src/lib/key-manager.ts:148-177 | The manager's map is updated at that id only, in cache and on disk. |
| `Keystore.KeyManager.GetKey` | src/lib/key-manager.ts:179-183 | Answers the map, and changes no entry. |
| `Keystore.KeyManager.DeleteKey` | src/lib/key-manager.ts:190-201 | Removes exactly that id, in cache and on disk, and says whether it was there. |
| `Keystore.KeyManager.ExportKeystore` | src/lib/key-manager.ts:203-236 | The export opens, under the key drawn for it, to exactly the entries. |
| `Keystore.KeyManager.ImportKeystore` | src/lib/key-manager.ts:238-275 | A wrong password changes nothing; otherwise the map is the union, and an import into an empty store restores all entries. |
| `Keystore.GetKeyAfterRestart` | src/lib/key-manager.ts:73-183 | A manager started anew on the same disk answers every lookup like the running one. |
| `KeyCustody.PollStatus` | src/application/use-cases/backup.use-case.ts:167-181 | The loop returns the first terminal answer within sixty polls, otherwise the answer of the POST. |
| `KeyCustody.BackupUseCase.Execute` | src/application/use-cases/backup.use-case.ts:31-205 | Outcome and keys after one request, for every answer of the gateway: "pending" remains only after a request whose POST threw or was answered without success, a reported id holds the key used, all else is unchanged. |
| `KeyCustody.FirstDecidedPollDecides` | src/application/use-cases/backup.use-case.ts:167-193 | Of a queued job that is waited for, the first of sixty polls that is answered with another status than none, "running" or "queued" decides: with "failed" or an error the request fails and "pending" is dropped, otherwise the job is reported and a kept key, the caller's or else the generated one, moves to its id; no other entry changes. |
| `KeyCustody.OtherwiseThePostDecides` | src/application/use-cases/backup.use-case.ts:164-193 | If no poll decides, or the job is not queued or not waited for, the POST's own answer decides in the same way. |
| `KeyCustody.RefusedExactlyWhenNotTakenOn` | src/application/use-cases/backup.use-case.ts:113-162 | A request ends before either exactly if its own key is not 64 hexadecimal digits, which changes no key, or its POST threw or was answered without success, which leaves a kept key under "pending". |
| `KeyCustody.UntouchedOverAll` | src/application/use-cases/backup.use-case.ts:113-193 | No sequence of requests and deletions changes the entry of an id it does not report or delete. |
| `KeyCustody.ReportedBackupsKeepTheirKey` | src/application/use-cases/backup.use-case.ts:164-193 | Every encrypted backup reported with a stored key keeps exactly the key it used, through any later requests for other ids. |
| `KeyCustody.RestoreFindsTheKey` | src/application/use-cases/restore.use-case.ts:209-217 | The restore's lookup then finds it. |
| `KeyCustody.TimeoutIsReported` | src/application/use-cases/backup.use-case.ts:167-193 | A job that is not terminal within the polls counts as reported. |
| `KeyCustody.PendingIsLeftExactlyWhen` | src/application/use-cases/backup.use-case.ts:113-193 | After any sequence of requests and deletions: "pending" is left, holding that request's key, if and only if the last step to keep a key or delete "pending" is a request whose POST threw or was answered without success. |
| `MetadataClients.ServeIsBounded` | src/lib/metadata-client.ts:148-193 | Calls are attempts plus one for the switch; sleeps are exactly the geometric sum of the retries made. |
| `MetadataClients.ServeReturnsTheLastReply` | src/lib/metadata-client.ts:148-220 | A request fails exactly if its last call failed, and otherwise returns the first successful reply. |
| `MetadataClients.RetriedExactlyWhile` | src/lib/metadata-client.ts:148-220 | Of the failures only a refused connection, a missing response and the statuses 502 to 504 are retried, apart from the gateway's answer to the switch; and a request that fails has used up its attempts or ended with another failure. |
| `MetadataClients.StatusIsHiddenExactlyWhen` | src/lib/metadata-client.ts:148-220 | For every number of retries: a rejection is reported without its status if and only if the switch to the gateway is made in the last attempt and the gateway rejects the call. |
| `MetadataClients.AbsentExactlyWhen` | src/lib/metadata-client.ts:252-270 | A job lookup answers "no such job" if and only if the last call was rejected with an error text containing "HTTP 404", or without a text, with status 404 and not in that hidden case. |
| `MetadataClients.MetadataClient.RetryLoop` | src/lib/metadata-client.ts:148-223 | The loop computes that result, and changes the base URL only to the gateway's. |
| `MetadataClients.MetadataClient.Request` | src/lib/metadata-client.ts:148-223 | At most `maxRetries` + 2 calls and `retryDelayMs` * (2^`maxRetries` - 1) of sleep; after a switch no further one is possible. |
| `MetadataClients.CallsAreAmortised` | src/lib/metadata-client.ts:148-193 | n requests of one client make at most n * (`maxRetries` + 1) + 1 calls. |
| `StorageDefaults.MetadataService.PostStorage` | src/microservices/metadata-service/index.ts:619-677 | The whole table after an upsert by name, for every refusal (no name, no type, id taken); a request made default leaves exactly itself, or nothing if it is refused late. |
| `StorageDefaults.MetadataService.PatchStorage` | src/microservices/metadata-service/index.ts:680-708 | The whole table after a patch; making an unknown id the default leaves no default. |
| `StorageDefaults.MetadataService.SetDefault` | src/microservices/metadata-service/index.ts:711-745 | The row by id or name becomes the only default, an unknown one changes nothing. |
| `StorageDefaults.MetadataService.DeleteStorage` | src/microservices/metadata-service/index.ts:748-779 | Removes exactly the row by id or name. |
| `StorageDefaults.MetadataService.GetDefault` | src/microservices/metadata-service/index.ts:575-590 | An enabled default, exactly if there is one. |
| `StorageDefaults.DefaultsAreBounded` | src/microservices/metadata-service/index.ts:640-739 | With at most n overlapping default-setting requests at most n rows are default; so serial requests keep at most one. |
| `StorageDefaults.OverlappingRequestsLeaveManyDefaults` | src/microservices/metadata-service/index.ts:640-739 | For any rows, n requests that all clear before any sets leave all of them default. |
| `PitrSelection.SelectionIsTheLatestBase` | src/services/postgres-pitr.service.ts:650-661 | The base chosen is a successful PITR base of the database with the greatest start not after the target. |
| `PitrSelection.EarliestIsLeast` | src/services/postgres-pitr.service.ts:563-577 | The reported earliest recoverable time is the least start of a PITR base. |
| `PitrSelection.RestorableExactlyFromTheReportedTime` | src/services/postgres-pitr.service.ts:563-661 | A base is found exactly if the target is at or after that time. |
| `SingleFlight.OneStartupAtATime` | src/infrastructure/infrastructure-manager.ts:280-293 | In no run are two startups under way at once. |
| `SingleFlight.QuietMeansCleared` | src/infrastructure/infrastructure-manager.ts:286-292 | Once every call has returned, also after failures, the field is clear and the next call starts afresh. |
| `SingleFlight.ReadyCoversWhatWasAwaited` | src/infrastructure/infrastructure-manager.ts:280-311 | "Ready" covers the services of the startup the call met, its own if it met none. |
| `SingleFlight.ReadyMeansReadyExactlyWhen` | src/infrastructure/infrastructure-manager.ts:280-293 | "Ready" always covers the caller's own services if and only if it meets no startup, one under way that includes them, or one already settled that failed or found them healthy. |
| `SingleFlight.WaitForReady` | src/infrastructure/infrastructure-manager.ts:347-376 | Ready exactly if a poll begun in time finds all services healthy, at the first such poll; otherwise the error lists what one more poll finds unhealthy. |
| `SingleFlight.PollsAreBounded` | src/infrastructure/infrastructure-manager.ts:347-376 | The pauses alone bound the number of polls by the timeout. |
| `SingleFlight.ATimeoutMayNameNoService` | src/infrastructure/infrastructure-manager.ts:371-375 | For every timeout and pause a wait can time out with an error that names no service. |

## Left out

- HTTP routing, request validation, CLI commands, the dashboard, logging and progress updates.
- Child processes beyond their effect: `pg_basebackup`, `pg_combinebackup`, `pg_dump`, `mongodump` and `psql` appear as a difference, a fold of patches or an opaque byte string. What follows the combine (configuration edits, starting a temporary server, dumping and loading), the version checks before a backup and the LSN check inside `pg_combinebackup` are not modelled.
- PostgreSQL's own WAL replay and recovery settings; only archive, fetch and base selection are modelled.
- The MySQL chain manager, whose source is not part of this model.
- Queue internals other than "an add under a retained id is ignored", bounded attempts and the states of a job: recovery of stalled jobs, the delays between attempts, and the purge of old jobs, after which an id could be queued again.
- An enqueue that is applied although its call throws.
- `POST` and `PATCH` of job records by clients other than orchestrator and worker.
- Redis losing or persisting its data across a restart, and keys of other databases; the lock model has one key.
- A second `acquire` on the same lock object; both callers make a fresh object for each use.
- ids, temporary names and tokens are assumed fresh; the id of a PITR base contains a timestamp only. Names of archives are not assumed fresh.
- The gateway-delegation branch of the CLI's restore and the credentials it collects; the places a local artifact is looked for are a parameter.
- Temporary files of the restore worker; they are registered only after they are written.
- How an encryption key is chosen among option, environment and keystore for WAL segments, and the parsing of hex keys; a key is a parameter there.
- Two running key managers on one file, and file permissions.
- Uploads and file writes are atomic; a partly written object or archive is not modelled, except as debris of a failed decode.
- `ChainRestore.RestoreBackupChain`: is stated for states in which the two rules have held; what one breach of either does is in `ChainReexecution` and `ChainLimits`, not what several do together.
- `DumpPipeline.PerformBackup`: takes the output of the gzip stream as given, its chunks adding up to gzip of the dump.
- `Admission.WaitingIsBounded`: counts first-attempt jobs; retried jobs return to the queue without a check and are not bounded.
- `PipelineHandlers.Programs.HandleBackupJob`: is one uninterrupted execution; interleavings with other handlers and a worker that stops part-way are runs of `JobPipeline`.
- `MetadataClients.AbsentExactlyWhen`: sets aside job ids that themselves contain "HTTP 404", since the id is part of the error text.
- `LeaseTiming.TheLeaseNeverLapses`: assumes that no refresh call ends in an error; what happens after one is `LeaseTiming.AStoppedLeaseRunsOut`.
- `SingleFlight.WaitForReady`: takes the health found by each poll as given and asks for a positive pause, as its one caller passes.
