/**
 What each step of the state machine is, as a change of the world: which columns a PATCH carries, what goes into which
 queue. The programs make exactly these changes.
 */
module PipelineSteps {
  import opened Wrappers
  import opened JobRecords
  import opened JobPipeline

  /** The columns a PATCH mentions; the others keep their value. */
  datatype Patch = Patch(status: Option<Status>, fileName: Option<Name>, storagePath: Option<Name>, metadata: Option<Metadata>)

  const NOTHING := Patch(None, None, None, None)

  function Patched(r: Record, p: Patch): Record {
    Record(if p.status.Some? then p.status.value else r.status,
           if p.fileName.Some? then p.fileName else r.fileName,
           if p.storagePath.Some? then p.storagePath else r.storagePath,
           if p.metadata.Some? then p.metadata.value else r.metadata)
  }

  /** What the worker writes on SUCCESS, and what the storage worker writes after an upload. */
  function SuccessPatch(r: Artifact): Patch {
    Patch(Some(Succeeded), Some(r.fileName), None, Some(Metadata(r.metadata, None)))
  }

  function UploadPatch(name: Name, existingJob: Record): Patch {
    Patch(None, None, Some(name), Some(existingJob.metadata.(upload := Some(name))))
  }

  function With(s: State, id: JobId, item: Item): State {
    s.(items := s.items[id := item])
  }

  /** Of two changes to one item the later stays. */
  lemma Flat(items: map<JobId, Item>, id: JobId, a: Item, b: Item)
    ensures items[id := a][id := b] == items[id := b]
  {
  }

  predicate Holding(s: State, id: JobId) {
    id in s.items && IsActive(s.items[id].queue)
  }

  predicate Trying(at: BackupStep) {
    !at.BIdle? && !at.BCaught? && !at.BMarked?
  }

  predicate Storing(s: State, id: JobId) {
    id in s.items && s.items[id].storage.Some?
  }

  predicate Calm(es: seq<Event>) {
    forall k {:trigger es[k]} :: 0 <= k < |es| ==> Undisturbed(es[k])
  }

  /** Some run from an empty installation ends in `t`; if `calm`, one in which no metadata write was lost, no worker
      stopped part-way and nobody cancelled. */
  ghost predicate Reached(calm: bool, t: State) {
    exists states, es :: Run(states, es) && states[|es|] == t && (calm ==> Calm(es))
  }

  lemma OneStepLonger(states: seq<State>, es: seq<Event>, e: Event)
    requires Run(states, es) && Enabled(states[|es|], e)
    ensures Run(states + [Next(states[|es|], e)], es + [e])
  {
    var es' := es + [e];
    forall n {:trigger es'[n]} | 0 <= n < |es'| && n < |es| ensures es'[n] == es[n] { }
  }

  lemma Extend(calm: bool, s: State, e: Event)
    requires Reached(calm, s) && Enabled(s, e)
    ensures Reached(calm && Undisturbed(e), Next(s, e))
  {
    var states, es :| Run(states, es) && states[|es|] == s && (calm ==> Calm(es));
    OneStepLonger(states, es, e);
    assert (states + [Next(s, e)])[|es + [e]|] == Next(s, e);
  }

  // ---------- Orchestrator ----------

  lemma StepCreate(calm: bool, s: State, id: JobId, s3: bool, metadata: string)
    requires Reached(calm, s) && id !in s.items
    ensures Reached(calm, With(s, id, Item(s3, Record(Running, None, None, Metadata(metadata, None)), Adding, None, BIdle, None, SIdle, false, metadata)))
  {
    Extend(calm, s, CreateRecord(id, s3, metadata));
  }

  lemma StepEnqueue(calm: bool, s: State, id: JobId)
    requires Reached(calm, s) && id in s.items && s.items[id].intake.Adding?
    ensures var item := s.items[id];
            Reached(calm, With(s, id, item.(queue := Some(QueueJob(Waiting, 0)), intake := FirstWait)))
  {
    Extend(calm, s, Enqueue(id));
  }

  lemma StepReject(calm: bool, s: State, id: JobId)
    requires Reached(calm, s) && id in s.items && s.items[id].intake.Adding?
    ensures var item := s.items[id];
            Reached(calm, With(s, id, item.(record := Patched(item.record, NOTHING.(status := Some(Failed))), intake := Past)))
  {
    Extend(calm, s, EnqueueFails(id));
  }

  lemma StepPick(calm: bool, s: State, id: JobId)
    requires Reached(calm, s) && id in s.items && Pickable(s.items[id].queue) && s.items[id].at.BIdle?
    ensures var item := s.items[id];
            Reached(calm, With(s, id, item.(queue := Some(item.queue.value.(state := Active)), at := BStarted, intake := Past)))
  {
    Extend(calm, s, Pick(id));
  }

  lemma StepStoragePick(calm: bool, s: State, id: JobId)
    requires Reached(calm, s) && Storing(s, id) && Pickable(StorageQueue(s.items[id])) && s.items[id].storageAt.SIdle?
    ensures var item := s.items[id];
            var job := item.storage.value;
            Reached(calm, With(s, id, item.(storage := Some(job.(queue := job.queue.(state := Active))), storageAt := SStarted)))
  {
    Extend(calm, s, StoragePick(id));
  }

  /** Neither the queue nor the record could be reached, or the handler stopped. */
  lemma StepSubmitLost(calm: bool, s: State, id: JobId)
    requires Reached(calm, s) && id in s.items && s.items[id].intake.Adding?
    ensures Reached(calm, With(s, id, s.items[id].(intake := Past)))
  {
    Extend(calm, s, EnqueueLost(id));
  }

  lemma StepCancel(calm: bool, s: State, id: JobId, removed: bool, recorded: bool)
    requires Reached(calm, s) && id in s.items
    ensures var item := s.items[id];
            var e := Cancel(id, removed, recorded);
            var cancelled := item.(record := if recorded then item.record.(status := Cancelled) else item.record,
                                   queue := if removed && !IsActive(item.queue) then None else item.queue);
            Reached(false, With(s, id, cancelled)) && Enabled(s, e) && Next(s, e) == With(s, id, cancelled)
  {
    Extend(calm, s, Cancel(id, removed, recorded));
  }

  // ---------- Backup worker ----------

  lemma StepRunning(calm: bool, s: State, id: JobId)
    requires Reached(calm, s) && Holding(s, id) && s.items[id].at.BStarted?
    ensures var item := s.items[id];
            Reached(calm, With(s, id, item.(record := Patched(item.record, NOTHING.(status := Some(Running))), at := BRunning)))
  {
    Extend(calm, s, WriteRunning(id));
  }

  lemma StepReply(calm: bool, s: State, id: JobId, r: Artifact, content: Bytes)
    requires Reached(calm, s) && Holding(s, id) && s.items[id].at.BRunning?
    ensures var item := s.items[id];
            Reached(calm, With(s, id, item.(at := BReplied(r))).(local := s.local[r.filePath := content]))
  {
    Extend(calm, s, ServiceReply(id, r, content));
  }

  lemma StepSuccess(calm: bool, s: State, id: JobId, r: Artifact)
    requires Reached(calm, s) && Holding(s, id) && s.items[id].at == BReplied(r)
    ensures var item := s.items[id];
            Reached(calm, With(s, id, item.(record := Patched(item.record, SuccessPatch(r)), at := BWrote(r), wrote := true, left := r.metadata)))
  {
    Extend(calm, s, WriteSuccess(id));
  }

  lemma StepQueueUpload(calm: bool, s: State, id: JobId, r: Artifact)
    requires Reached(calm, s) && Holding(s, id) && s.items[id].at == BWrote(r) && s.items[id].s3
    ensures var item := s.items[id];
            Reached(calm, With(s, id, item.(storage := Some(if item.storage.Some? then item.storage.value else StorageJob(r.fileName, r.filePath, QueueJob(Waiting, 0))), at := BQueued)))
  {
    Extend(calm, s, QueueNext(id));
  }

  lemma StepQueueNotice(calm: bool, s: State, id: JobId, r: Artifact)
    requires Reached(calm, s) && Holding(s, id) && s.items[id].at == BWrote(r) && !s.items[id].s3
    ensures var item := s.items[id];
            Reached(calm, With(s, id, item.(at := BQueued)).(notices := AddNotice(s.notices, Notice(id, true))))
  {
    Extend(calm, s, QueueNext(id));
  }

  lemma StepComplete(calm: bool, s: State, id: JobId)
    requires Reached(calm, s) && Holding(s, id) && s.items[id].at.BQueued?
    ensures var item := s.items[id];
            Reached(calm, With(s, id, item.(queue := Some(item.queue.value.(state := Completed)), at := BIdle)))
  {
    Extend(calm, s, Complete(id));
  }

  lemma StepThrow(calm: bool, s: State, id: JobId)
    requires Reached(calm, s) && Holding(s, id) && Trying(s.items[id].at)
    ensures var item := s.items[id];
            Reached(calm, With(s, id, item.(at := BCaught)))
  {
    Extend(calm, s, Throw(id));
  }

  lemma StepFailed(calm: bool, s: State, id: JobId)
    requires Reached(calm, s) && Holding(s, id) && s.items[id].at.BCaught?
    ensures var item := s.items[id];
            Reached(calm, With(s, id, item.(record := Patched(item.record, NOTHING.(status := Some(Failed))), at := BMarked)))
  {
    Extend(calm, s, WriteFailed(id));
  }

  lemma StepFailedLost(calm: bool, s: State, id: JobId)
    requires Reached(calm, s) && Holding(s, id) && s.items[id].at.BCaught?
    ensures var item := s.items[id];
            Reached(false, With(s, id, item.(queue := Some(AttemptFails(item.queue.value, s.backupAttempts)), at := BIdle)))
  {
    Extend(calm, s, WriteFailedLost(id));
  }

  lemma StepFail(calm: bool, s: State, id: JobId, notified: bool)
    requires Reached(calm, s) && Holding(s, id) && s.items[id].at.BMarked?
    ensures var item := s.items[id];
            Reached(calm, With(s, id, item.(queue := Some(AttemptFails(item.queue.value, s.backupAttempts)), at := BIdle))
                  .(notices := if notified then AddNotice(s.notices, Notice(id, false)) else s.notices))
  {
    Extend(calm, s, Fail(id, notified));
  }

  /** From the exception to the queue's answer: the FAILED write, the notice, the counted attempt. */
  lemma StepsGiveUp(calm: bool, s: State, id: JobId, notified: bool)
    requires Reached(calm, s) && Holding(s, id) && Trying(s.items[id].at)
    ensures var item := s.items[id];
            var failed := item.(record := Patched(item.record, NOTHING.(status := Some(Failed))));
            Reached(calm, With(s, id, failed.(queue := Some(AttemptFails(item.queue.value, s.backupAttempts)), at := BIdle))
                          .(notices := if notified then AddNotice(s.notices, Notice(id, false)) else s.notices))
  {
    var item := s.items[id];
    var failed := item.(record := Patched(item.record, NOTHING.(status := Some(Failed))));
    var caught := With(s, id, item.(at := BCaught));
    var marked := With(s, id, failed.(at := BMarked));
    StepThrow(calm, s, id);
    StepFailed(calm, caught, id);
    Flat(s.items, id, item.(at := BCaught), failed.(at := BMarked));
    StepFail(calm, marked, id, notified);
    Flat(s.items, id, failed.(at := BMarked), failed.(queue := Some(AttemptFails(item.queue.value, s.backupAttempts)), at := BIdle));
  }

  /** The same when the FAILED write throws. */
  lemma StepsGiveUpLost(calm: bool, s: State, id: JobId)
    requires Reached(calm, s) && Holding(s, id) && Trying(s.items[id].at)
    ensures var item := s.items[id];
            Reached(false, With(s, id, item.(queue := Some(AttemptFails(item.queue.value, s.backupAttempts)), at := BIdle)))
  {
    var item := s.items[id];
    StepThrow(calm, s, id);
    StepFailedLost(calm, With(s, id, item.(at := BCaught)), id);
    Flat(s.items, id, item.(at := BCaught), item.(queue := Some(AttemptFails(item.queue.value, s.backupAttempts)), at := BIdle));
  }

  // ---------- Storage worker ----------

  lemma StepRead(calm: bool, s: State, id: JobId)
    requires Reached(calm, s) && Storing(s, id) && s.items[id].storageAt.SStarted?
    ensures var item := s.items[id];
            Reached(calm, With(s, id, item.(storageAt := SRead(item.record))))
  {
    Extend(calm, s, StorageRead(id));
  }

  lemma StepSkip(calm: bool, s: State, id: JobId)
    requires Reached(calm, s) && Storing(s, id) && s.items[id].storageAt.SRead? && s.items[id].storageAt.seen.storagePath == Some(s.items[id].storage.value.fileName)
    ensures var item := s.items[id];
            Reached(calm, With(s, id, item.(storageAt := SRecorded)))
  {
    Extend(calm, s, StorageSkip(id));
  }

  lemma StepUpload(calm: bool, s: State, id: JobId)
    requires Reached(calm, s) && Storing(s, id) && s.items[id].storageAt.SRead?
             && s.items[id].storageAt.seen.storagePath != Some(s.items[id].storage.value.fileName) && s.items[id].storage.value.filePath in s.local
    ensures var item := s.items[id];
            Reached(calm, With(s, id, item.(storageAt := SUploaded(item.storageAt.seen)))
                  .(remote := s.remote[item.storage.value.fileName := s.local[item.storage.value.filePath]]))
  {
    Extend(calm, s, StorageUpload(id));
  }

  lemma StepRecord(calm: bool, s: State, id: JobId)
    requires Reached(calm, s) && Storing(s, id) && s.items[id].storageAt.SUploaded?
    ensures var item := s.items[id];
            Reached(calm, With(s, id, item.(record := Patched(item.record, UploadPatch(item.storage.value.fileName, item.storageAt.seen)), storageAt := SRecorded)))
  {
    Extend(calm, s, StorageRecord(id));
  }

  lemma StepNotify(calm: bool, s: State, id: JobId)
    requires Reached(calm, s) && Storing(s, id) && s.items[id].storageAt.SRecorded?
    ensures var item := s.items[id];
            Reached(calm, With(s, id, item.(storageAt := SNotified)).(notices := AddNotice(s.notices, Notice(id, true))))
  {
    Extend(calm, s, StorageNotify(id));
  }

  lemma StepSettle(calm: bool, s: State, id: JobId, ok: bool)
    requires Reached(calm, s) && Storing(s, id) && !s.items[id].storageAt.SIdle? && (ok ==> s.items[id].storageAt.SNotified?)
    ensures var item := s.items[id];
            var job := item.storage.value;
            var q := if ok then job.queue.(state := Completed) else AttemptFails(job.queue, s.storageAttempts);
            Reached(calm, With(s, id, item.(storage := Some(job.(queue := q)), storageAt := SIdle)))
  {
    Extend(calm, s, if ok then StorageComplete(id) else StorageThrow(id));
  }
}
