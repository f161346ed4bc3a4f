/** Three histories of one installation that starts out empty: a clean backup, a retry, and a retry under a chosen name. */
module PipelineScenarios {
  import opened Wrappers
  import opened JobRecords
  import opened JobPipeline
  import opened PipelineOutcomes
  import opened PipelineSteps
  import opened PipelineHandlers

  const NO_SUBMIT_FAULTS := SubmitFaults(false, false, false)
  const NO_BACKUP_FAULTS := BackupFaults(false, false, false, false, false, false)
  const NO_STORAGE_FAULTS := StorageFaults(false, false, false, false, false)

  lemma PickIs(s: State, id: JobId)
    requires Enabled(s, Pick(id))
    ensures var item := s.items[id];
            Next(s, Pick(id)) == With(s, id, item.(queue := Some(item.queue.value.(state := Active)), at := BStarted, intake := Past))
  {
  }

  lemma StoragePickIs(s: State, id: JobId)
    requires Enabled(s, StoragePick(id))
    ensures var item := s.items[id];
            var job := item.storage.value;
            Next(s, StoragePick(id)) == With(s, id, item.(storage := Some(job.(queue := job.queue.(state := Active))), storageAt := SStarted))
  {
  }

  /** A backup is submitted to an empty installation, and a worker takes it. */
  method SubmitAndTake(id: JobId, s3: bool, attempts: nat) returns (p: Programs)
    ensures fresh(p) && p.Valid() && p.calm
    ensures p.world.items.Keys == {id} && p.world.items[id] == Submitted(s3, "").(queue := Some(QueueJob(Active, 0)), at := BStarted, intake := Past)
    ensures p.world == State(p.world.items, map[], map[], [], attempts, attempts)
  {
    p := new Programs(attempts, attempts);
    assert WaitingJobs(p.world) == {};
    var _ := p.PostBackup(id, s3, "", 1, NO_SUBMIT_FAULTS);
    PickIs(p.world, id);
    var _ := p.TakeBackupJob(id);
  }

  /** A worker takes the waiting upload, and nothing throws. */
  method Store(p: Programs, id: JobId)
    requires p.Valid() && id in p.world.items
    requires var item := p.world.items[id];
             && item.storage.Some? && item.storage.value.queue == QueueJob(Waiting, 0) && item.storageAt.SIdle?
             && item.record.storagePath.None? && item.storage.value.filePath in p.world.local
    modifies p
    ensures p.Valid() && (old(p.calm) ==> p.calm) && p.world.local == old(p.world).local && id in p.world.items
    ensures var item := old(p.world).items[id];
            var job := item.storage.value;
            && p.world.items[id] == item.(storage := Some(job.(queue := QueueJob(Completed, 0))),
                                          record := item.record.(storagePath := Some(job.fileName), metadata := item.record.metadata.(upload := Some(job.fileName))))
            && p.world.remote == old(p.world).remote[job.fileName := p.world.local[job.filePath]]
    ensures p.world.notices == AddNotice(old(p.world).notices, Notice(id, true))
    ensures p.world.backupAttempts == old(p.world).backupAttempts
  {
    StoragePickIs(p.world, id);
    var _ := p.TakeStorageJob(id);
    var _ := p.HandleStorageJob(id, NO_STORAGE_FAULTS);
  }

  /** One attempt of each worker: the backup is successful, its object is stored, and its success is announced. */
  method BackUpToS3(id: JobId, result: Artifact, content: Bytes) returns (p: Programs)
    ensures fresh(p) && p.Valid() && p.calm
    ensures id in p.world.items && Done(p.world.items[id])
    ensures p.world.items[id].record.status.Succeeded? && p.world.items[id].record.storagePath == Some(result.fileName)
    ensures p.world.remote == map[result.fileName := content] && p.world.notices == [Notice(id, true)]
  {
    p := SubmitAndTake(id, true, 1);
    var _ := p.HandleBackupJob(id, Archived(result, content), NO_BACKUP_FAULTS);
    Store(p, id);
  }

  /** An attempt fails and says so, the next one succeeds: the backup is successful, and stays announced as failed. */
  method RetryAfterNotice(id: JobId, result: Artifact, content: Bytes) returns (p: Programs)
    ensures fresh(p) && p.Valid() && p.calm
    ensures id in p.world.items && Done(p.world.items[id]) && p.world.items[id].record.status.Succeeded?
    ensures p.world.notices == [Notice(id, false)]
  {
    p := SubmitAndTake(id, false, 2);
    var _ := p.HandleBackupJob(id, Refused, NO_BACKUP_FAULTS);
    assert p.world.notices == [Notice(id, false)];
    PickIs(p.world, id);
    var _ := p.TakeBackupJob(id);
    assert Queued(p.world.notices, id) by { assert p.world.notices[0].id == id; }
    var _ := p.HandleBackupJob(id, Archived(result, content), NO_BACKUP_FAULTS);
  }

  /** An attempt fails after its upload was queued, and the upload completes all the same. */
  method FailAfterQueueing(id: JobId, result: Artifact, content: Bytes) returns (p: Programs)
    ensures fresh(p) && p.Valid() && p.calm && id in p.world.items
    ensures var item := p.world.items[id];
            && item.s3 && item.record.status.Failed? && item.at.BIdle? && item.queue == Some(QueueJob(Delayed, 1))
            && item.storage == Some(StorageJob(result.fileName, result.filePath, QueueJob(Completed, 0)))
    ensures p.world.local == map[result.filePath := content] && p.world.remote == map[result.fileName := content]
  {
    p := SubmitAndTake(id, true, 2);
    var _ := p.HandleBackupJob(id, Archived(result, content), NO_BACKUP_FAULTS.(finish := true));
    Store(p, id);
  }

  /** If its name was chosen, the retry writes the same file anew, and its upload is ignored: the object is not the
      file of the successful backup. */
  method NamedRetry(id: JobId, result: Artifact, first: Bytes, second: Bytes) returns (p: Programs)
    requires first != second
    ensures fresh(p) && p.Valid() && p.calm
    ensures id in p.world.items && Done(p.world.items[id]) && p.world.items[id].record.status.Succeeded?
    ensures p.world.items[id].queue == Some(QueueJob(Completed, 1))
    ensures p.world.local == map[result.filePath := second] && p.world.remote == map[result.fileName := first]
    ensures !Faithful(p.world, result.fileName, result.filePath)
  {
    p := FailAfterQueueing(id, result, first);
    PickIs(p.world, id);
    var _ := p.TakeBackupJob(id);
    var _ := p.HandleBackupJob(id, Archived(result, second), NO_BACKUP_FAULTS);
  }

  // ---------- A late record ----------

  /** An installation with one item. */
  function World(id: JobId, item: Item, local: map<Path, Bytes>, remote: map<Name, Bytes>, notices: seq<Notice>): State {
    State(map[id := item], local, remote, notices, 2, 1)
  }

  lemma WithWorld(id: JobId, a: Item, b: Item, local: map<Path, Bytes>, remote: map<Name, Bytes>, notices: seq<Notice>)
    ensures With(World(id, a, local, remote, notices), id, b) == World(id, b, local, remote, notices)
  {
    assert map[id := a][id := b] == map[id := b];
  }

  /** The first attempt has written its SUCCESS row and queued its upload. */
  function FirstQueued(r: Artifact): Item {
    Submitted(true, "").(queue := Some(QueueJob(Active, 0)), intake := Past, at := BQueued, wrote := true, left := r.metadata,
                         record := SuccessRow(NewItem(true, "").record, r),
                         storage := Some(StorageJob(r.fileName, r.filePath, QueueJob(Waiting, 0))))
  }

  lemma FirstAttempt(id: JobId, r: Artifact, content: Bytes)
    ensures Reached(true, World(id, FirstQueued(r), map[r.filePath := content], map[], []))
  {
    var s0 := State(map[], map[], map[], [], 2, 1);
    assert JobPipeline.Run([s0], []) && Calm([]);
    assert Reached(true, s0);
    var a0 := NewItem(true, "");
    StepCreate(true, s0, id, true, "");
    assert With(s0, id, a0) == World(id, a0, map[], map[], []);
    var a1 := a0.(queue := Some(QueueJob(Waiting, 0)), intake := FirstWait);
    StepEnqueue(true, World(id, a0, map[], map[], []), id);
    WithWorld(id, a0, a1, map[], map[], []);
    var a2 := a1.(queue := Some(QueueJob(Active, 0)), at := BStarted, intake := Past);
    StepPick(true, World(id, a1, map[], map[], []), id);
    WithWorld(id, a1, a2, map[], map[], []);
    FirstReply(id, a2, r, content);
  }

  lemma FirstReply(id: JobId, a2: Item, r: Artifact, content: Bytes)
    requires a2 == Submitted(true, "").(queue := Some(QueueJob(Active, 0)), at := BStarted, intake := Past)
    requires Reached(true, World(id, a2, map[], map[], []))
    ensures Reached(true, World(id, FirstQueued(r), map[r.filePath := content], map[], []))
  {
    var local := map[r.filePath := content];
    var a3 := a2.(at := BRunning);
    StepRunning(true, World(id, a2, map[], map[], []), id);
    WithWorld(id, a2, a3, map[], map[], []);
    var a4 := a3.(at := BReplied(r));
    StepReply(true, World(id, a3, map[], map[], []), id, r, content);
    WithWorld(id, a3, a4, map[], map[], []);
    var a5 := a4.(record := SuccessRow(a4.record, r), at := BWrote(r), wrote := true, left := r.metadata);
    StepSuccess(true, World(id, a4, local, map[], []), id, r);
    WithWorld(id, a4, a5, local, map[], []);
    StepQueueUpload(true, World(id, a5, local, map[], []), id, r);
    WithWorld(id, a5, FirstQueued(r), local, map[], []);
  }

  /** The storage worker has read the record and uploaded, when the backup worker's attempt fails. */
  function Overtaken(r: Artifact): Item {
    var item := FirstQueued(r);
    item.(storage := Some(StorageJob(r.fileName, r.filePath, QueueJob(Active, 0))), storageAt := SUploaded(item.record),
          record := item.record.(status := Failed), queue := Some(QueueJob(Delayed, 1)), at := BIdle)
  }

  lemma UploadAndFail(id: JobId, r: Artifact, content: Bytes)
    ensures Reached(true, World(id, Overtaken(r), map[r.filePath := content], map[r.fileName := content], []))
  {
    var local := map[r.filePath := content];
    var b0 := FirstQueued(r);
    FirstAttempt(id, r, content);
    var b1 := b0.(storage := Some(StorageJob(r.fileName, r.filePath, QueueJob(Active, 0))), storageAt := SStarted);
    StepStoragePick(true, World(id, b0, local, map[], []), id);
    WithWorld(id, b0, b1, local, map[], []);
    var b2 := b1.(storageAt := SRead(b1.record));
    StepRead(true, World(id, b1, local, map[], []), id);
    WithWorld(id, b1, b2, local, map[], []);
    var b3 := b2.(storageAt := SUploaded(b1.record));
    StepUpload(true, World(id, b2, local, map[], []), id);
    WithWorld(id, b2, b3, local, map[], []);
    StepsGiveUp(true, World(id, b3, local, map[r.fileName := content], []), id, false);
    WithWorld(id, b3, Overtaken(r), local, map[r.fileName := content], []);
  }

  /** The retry succeeds with another archive. */
  function Retried(r1: Artifact, r2: Artifact): Item {
    var item := Overtaken(r1);
    item.(record := SuccessRow(item.record, r2), queue := Some(QueueJob(Completed, 1)), wrote := true, left := r2.metadata)
  }

  lemma Retry(id: JobId, r1: Artifact, r2: Artifact, local: map<Path, Bytes>, content: Bytes, remote: map<Name, Bytes>)
    requires Reached(true, World(id, Overtaken(r1), local, remote, []))
    ensures Reached(true, World(id, Retried(r1, r2), local[r2.filePath := content], remote, []))
  {
    var after := local[r2.filePath := content];
    var c0 := Overtaken(r1);
    var c1 := c0.(queue := Some(QueueJob(Active, 1)), at := BStarted);
    StepPick(true, World(id, c0, local, remote, []), id);
    WithWorld(id, c0, c1, local, remote, []);
    var c2 := c1.(record := c1.record.(status := Running), at := BRunning);
    StepRunning(true, World(id, c1, local, remote, []), id);
    WithWorld(id, c1, c2, local, remote, []);
    var c3 := c2.(at := BReplied(r2));
    StepReply(true, World(id, c2, local, remote, []), id, r2, content);
    WithWorld(id, c2, c3, local, remote, []);
    RetryEnds(id, r1, r2, c3, after, remote);
  }

  lemma RetryEnds(id: JobId, r1: Artifact, r2: Artifact, c3: Item, local: map<Path, Bytes>, remote: map<Name, Bytes>)
    requires c3 == Overtaken(r1).(queue := Some(QueueJob(Active, 1)), record := Overtaken(r1).record.(status := Running), at := BReplied(r2))
    requires Reached(true, World(id, c3, local, remote, []))
    ensures Reached(true, World(id, Retried(r1, r2), local, remote, []))
  {
    var c4 := c3.(record := SuccessRow(c3.record, r2), at := BWrote(r2), wrote := true, left := r2.metadata);
    StepSuccess(true, World(id, c3, local, remote, []), id, r2);
    WithWorld(id, c3, c4, local, remote, []);
    var c5 := c4.(at := BQueued);
    StepQueueUpload(true, World(id, c4, local, remote, []), id, r2);
    WithWorld(id, c4, c5, local, remote, []);
    StepComplete(true, World(id, c5, local, remote, []), id);
    WithWorld(id, c5, Retried(r1, r2), local, remote, []);
  }

  /** The storage worker now records what it had read, and both workers are done. */
  function LateRecorded(r1: Artifact, r2: Artifact): Item {
    var item := Retried(r1, r2);
    item.(record := item.record.(storagePath := Some(r1.fileName), metadata := Metadata(r1.metadata, Some(r1.fileName))),
          storage := Some(StorageJob(r1.fileName, r1.filePath, QueueJob(Completed, 0))), storageAt := SIdle)
  }

  /** A history without a lost write, a stopped worker or a cancellation: the backup has succeeded, its queue jobs are
      completed, nothing will touch the record's metadata again, and they are those of the first, failed attempt. */
  lemma LateRecordWins(id: JobId, r1: Artifact, r2: Artifact, first: Bytes, second: Bytes) returns (states: seq<State>, events: seq<Event>)
    requires r1.metadata != r2.metadata
    ensures JobPipeline.Run(states, events) && Calm(events) && id in states[|events|].items
    ensures var item := states[|events|].items[id];
            && item.record.status.Succeeded? && item.record.fileName == Some(r2.fileName) && item.left == r2.metadata
            && item.queue == Some(QueueJob(Completed, 1)) && Settled(item)
            && item.record.metadata.worker == r1.metadata && !Carries(states[|events|], id)
  {
    var local := map[r1.filePath := first][r2.filePath := second];
    var remote := map[r1.fileName := first];
    var d0 := Retried(r1, r2);
    UploadAndFail(id, r1, first);
    Retry(id, r1, r2, map[r1.filePath := first], second, remote);
    var d1 := d0.(record := LateRecorded(r1, r2).record, storageAt := SRecorded);
    StepRecord(true, World(id, d0, local, remote, []), id);
    WithWorld(id, d0, d1, local, remote, []);
    var d2 := d1.(storageAt := SNotified);
    StepNotify(true, World(id, d1, local, remote, []), id);
    WithWorld(id, d1, d2, local, remote, []);
    var notices := AddNotice([], Notice(id, true));
    StepSettle(true, World(id, d2, local, remote, notices), id, true);
    WithWorld(id, d2, LateRecorded(r1, r2), local, remote, notices);
    var last := World(id, LateRecorded(r1, r2), local, remote, notices);
    states, events :| JobPipeline.Run(states, events) && states[|events|] == last && (true ==> Calm(events));
  }
}
