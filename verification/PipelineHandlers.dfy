/**
 The programs of the pipeline as they run, on one installation that starts out empty: the orchestrator's two
 endpoints, the queue handing out jobs, the backup handler with its catch block, the storage handler. Wherever a call
 inside a handler throws, its execution is a run of the state machine, so what holds over runs holds after any
 sequence of these calls.
 */
module PipelineHandlers {
  import opened Wrappers
  import opened JobRecords
  import opened JobPipeline
  import opened PipelineOutcomes
  import opened PipelineSteps

  /** What the database service answers; the archive it wrote comes with it. */
  datatype Reply = Archived(result: Artifact, content: Bytes) | Refused

  /** Which calls throw: up to the RUNNING write, from the reply to the SUCCESS write, from there to the enqueue, after
      the enqueue, and in the catch block the FAILED write and the notice. */
  datatype BackupFaults = BackupFaults(running: bool, success: bool, enqueue: bool, finish: bool, failed: bool, notice: bool)

  /** Likewise: the read, the upload, the record's update, the notice, and what follows the notice. */
  datatype StorageFaults = StorageFaults(read: bool, upload: bool, record: bool, notice: bool, finish: bool)

  datatype SubmitFaults = SubmitFaults(create: bool, add: bool, failed: bool)

  datatype CancelFaults = CancelFaults(lookup: bool, remove: bool, update: bool)

  datatype SubmitReply = QueueFull | Accepted | SubmitFailed

  /** An unknown job is answered as an error; which one depends on what the lookup makes of the 404. */
  datatype CancelReply = NotCancelled | Removed

  class Programs {
    var world: State
    ghost var calm: bool

    /** The present state is reached by steps of the state machine. */
    ghost predicate Valid()
      reads this
    {
      Reached(calm, world)
    }

    constructor (backupAttempts: nat, storageAttempts: nat)
      ensures Valid() && calm
      ensures world == State(map[], map[], map[], [], backupAttempts, storageAttempts)
    {
      world := State(map[], map[], map[], [], backupAttempts, storageAttempts);
      calm := true;
      new;
      assert Run([world], []) && Calm([]);
    }

    /** What has happened so far, as a run; everything proved of runs applies to it. */
    lemma History() returns (states: seq<State>, events: seq<Event>)
      requires Valid()
      ensures Run(states, events) && states[|events|] == world && (calm ==> Calm(events))
    {
      states, events :| Run(states, events) && states[|events|] == world && (calm ==> Calm(events));
    }

    /** After any sequence of calls: at most one notification per id, every success notice after its SUCCESS write
        and recorded upload, and, if all was calm, queue and record in agreement. */
    lemma WorldIsInOrder()
      requires Valid()
      ensures NoticesInOrder(world) && (calm ==> AllAgree(world))
    {
      var states, events := History();
      SuccessIsNotifiedLast(states, events, |events|);
      if calm { QueueAndRecordAgree(states, events, |events|); }
    }

    /** After any sequence of calls: a finished job is announced, and a completed upload is recorded. */
    lemma FinishedJobs(id: JobId)
      requires Valid() && id in world.items
      ensures Done(world.items[id]) ==> Retained(world, id).Some?
      ensures world.items[id].storage.Some? && world.items[id].storage.value.queue.state.Completed? ==> UploadRecorded(world, world.items[id])
    {
      var states, events := History();
      if Done(world.items[id]) {
        var k := AnnouncedAsSuccessExactlyWhen(states, events, |events|, id);
      }
      if world.items[id].storage.Some? && world.items[id].storage.value.queue.state.Completed? {
        CompletedUploadIsRecorded(states, events, |events|, id);
      }
    }

    // ---------- The orchestrator ----------

    /** POST /backup: `id` is a new UUID; a full queue leaves no record behind. */
    method PostBackup(id: JobId, s3: bool, metadata: string, maxQueueSize: nat, faults: SubmitFaults)
      returns (r: SubmitReply)
      requires Valid() && id !in world.items
      modifies this
      ensures Valid() && (old(calm) ==> calm)
      ensures r == if |WaitingJobs(old(world))| >= maxQueueSize then QueueFull
                   else if faults.create || faults.add then SubmitFailed else Accepted
      ensures r.QueueFull? || faults.create ==> world == old(world)
      ensures r.Accepted? ==>
                && Only(old(world), id, world) && world.items[id] == Submitted(s3, metadata)
                && world == old(world).(items := world.items)
                && WaitingJobs(world) == WaitingJobs(old(world)) + {id} && |WaitingJobs(world)| <= maxQueueSize
      ensures r.SubmitFailed? && !faults.create ==>
                && Only(old(world), id, world) && world.items[id].queue.None?
                && world.items[id].record.status == (if faults.failed then Running else Failed)
    {
      if |WaitingJobs(world)| >= maxQueueSize {
        return QueueFull;
      }
      if faults.create {
        return SubmitFailed;
      }
      ghost var before := world;
      StepCreate(calm, world, id, s3, metadata);
      world := With(world, id, NewItem(s3, metadata));
      if !faults.add {
        StepEnqueue(calm, world, id);
        world := With(world, id, world.items[id].(queue := Some(QueueJob(Waiting, 0)), intake := FirstWait));
        Flat(before.items, id, NewItem(s3, metadata), world.items[id]);
        OneMoreWaits(before, id, world);
        return Accepted;
      }
      if faults.failed {
        StepSubmitLost(calm, world, id);
        world := With(world, id, world.items[id].(intake := Past));
      } else {
        StepReject(calm, world, id);
        world := With(world, id, world.items[id].(record := Patched(world.items[id].record, NOTHING.(status := Some(Failed))), intake := Past));
      }
      Flat(before.items, id, NewItem(s3, metadata), world.items[id]);
      r := SubmitFailed;
    }

    /** DELETE /backup/:id: a job the worker holds stays in the queue, any other leaves it, unless the queue cannot be
        reached, which is ignored; a record that cannot be written is not, but the job has left by then. */
    method DeleteBackup(id: JobId, faults: CancelFaults) returns (r: CancelReply)
      requires Valid()
      modifies this
      ensures Valid()
      ensures r.Removed? <==> id in old(world).items && !faults.lookup && !faults.update
      ensures id !in old(world).items || faults.lookup ==> world == old(world) && calm == old(calm)
      ensures id in old(world).items && !faults.lookup ==>
                var cancel := Cancel(id, !faults.remove, !faults.update);
                Enabled(old(world), cancel) && world == Next(old(world), cancel)
      ensures id in old(world).items && !faults.lookup ==>
                var was, now := old(world).items[id], world.items[id];
                && now == was.(record := now.record, queue := now.queue)
                && now.record == was.record.(status := if faults.update then was.record.status else Cancelled)
                && now.queue == if faults.remove || (was.queue.Some? && was.queue.value.state == Active) then was.queue else None
    {
      if id !in world.items || faults.lookup {
        return NotCancelled;
      }
      var job := world.items[id].queue;
      var record := world.items[id].record;
      if !faults.remove && job.Some? && !job.value.state.Active? {
        job := None;
      }
      if !faults.update {
        record := Patched(record, NOTHING.(status := Some(Cancelled)));
      }
      StepCancel(calm, world, id, !faults.remove, !faults.update);
      world := With(world, id, world.items[id].(record := record, queue := job));
      calm := false;
      r := if faults.update then NotCancelled else Removed;
    }

    // ---------- The queues hand out jobs ----------

    method TakeBackupJob(id: JobId) returns (ok: bool)
      requires Valid()
      modifies this
      ensures Valid() && (old(calm) ==> calm)
      ensures ok <==> Enabled(old(world), Pick(id))
      ensures ok ==> world == Next(old(world), Pick(id))
      ensures !ok ==> world == old(world)
    {
      ghost var was := world;
      ok := id in world.items && Pickable(world.items[id].queue) && world.items[id].at.BIdle?;
      if ok {
        var item := world.items[id];
        was := world;
        world := With(world, id, item.(queue := Some(item.queue.value.(state := Active)), at := BStarted, intake := Past));
        assert Reached(calm, world) by { Extend(calm, was, Pick(id)); }
      }
    }

    method TakeStorageJob(id: JobId) returns (ok: bool)
      requires Valid()
      modifies this
      ensures Valid() && (old(calm) ==> calm)
      ensures ok <==> Enabled(old(world), StoragePick(id))
      ensures ok ==> world == Next(old(world), StoragePick(id))
      ensures !ok ==> world == old(world)
    {
      ghost var was := world;
      ok := id in world.items && Pickable(StorageQueue(world.items[id])) && world.items[id].storageAt.SIdle?;
      if ok {
        var item := world.items[id];
        var job := item.storage.value;
        was := world;
        world := With(world, id, item.(storage := Some(job.(queue := job.queue.(state := Active))), storageAt := SStarted));
        assert Reached(calm, world) by { Extend(calm, was, StoragePick(id)); }
      }
    }

    // ---------- The backup handler ----------

    /** The try block up to the service's reply; false when a call threw. */
    method Obtain(id: JobId, reply: Reply, faults: BackupFaults) returns (ok: bool)
      requires Valid() && Holding(world, id) && world.items[id].at.BStarted?
      modifies this
      ensures Valid() && (old(calm) ==> calm)
      ensures ok <==> Replies(reply, faults)
      ensures ok ==> world == Replied(old(world), id, reply.result, reply.content)
      ensures !ok ==> Held(old(world), id, world) && world == old(world).(items := world.items)
      ensures !ok ==> world.items[id].record == Written(old(world).items[id].record, reply, faults)
    {
      ghost var items := world.items;
      if faults.running {
        assert items[id := items[id]] == items;
        return false;
      }
      var item := world.items[id];
      StepRunning(calm, world, id);
      world := With(world, id, item.(record := Patched(item.record, NOTHING.(status := Some(Running))), at := BRunning));
      if reply.Refused? {
        return false;
      }
      StepReply(calm, world, id, reply.result, reply.content);
      world := With(world, id, world.items[id].(at := BReplied(reply.result)))
               .(local := world.local[reply.result.filePath := reply.content]);
      Flat(items, id, item.(record := Patched(item.record, NOTHING.(status := Some(Running))), at := BRunning), world.items[id]);
      ok := true;
    }

    /** The SUCCESS write and the enqueue: an S3 backup queues its upload, unless one is queued already; any other
        queues its notification. False when a call threw. */
    method Publish(id: JobId, result: Artifact, faults: BackupFaults) returns (ok: bool)
      requires Valid() && Holding(world, id) && world.items[id].at == BReplied(result)
      modifies this
      ensures Valid() && (old(calm) ==> calm)
      ensures ok <==> !faults.success && !faults.enqueue
      ensures ok ==> world == Queueing(old(world), id, result)
      ensures !ok ==> Held(old(world), id, world) && world == old(world).(items := world.items)
      ensures !ok ==> world.items[id].record == if faults.success then old(world).items[id].record else SuccessRow(old(world).items[id].record, result)
    {
      ghost var items := world.items;
      if faults.success {
        assert items[id := items[id]] == items;
        return false;
      }
      var item := world.items[id];
      StepSuccess(calm, world, id, result);
      world := With(world, id, item.(record := Patched(item.record, SuccessPatch(result)), at := BWrote(result), wrote := true, left := result.metadata));
      if faults.enqueue {
        return false;
      }
      item := world.items[id];
      ghost var wrote := item;
      if item.s3 {
        StepQueueUpload(calm, world, id, result);
        if item.storage.None? {
          item := item.(storage := Some(StorageJob(result.fileName, result.filePath, QueueJob(Waiting, 0))));
        }
        world := With(world, id, item.(at := BQueued));
      } else {
        StepQueueNotice(calm, world, id, result);
        world := With(world, id, item.(at := BQueued)).(notices := AddNotice(world.notices, Notice(id, true)));
      }
      Flat(items, id, wrote, world.items[id]);
      ok := true;
    }

    /** The catch block, and the queue's answer to the exception it ends with. */
    method GiveUp(id: JobId, faults: BackupFaults)
      requires Valid() && Holding(world, id) && Trying(world.items[id].at)
      modifies this
      ensures Valid() && (old(calm) && !faults.failed ==> calm)
      ensures Only(old(world), id, world) && world == old(world).(items := world.items, notices := world.notices)
      ensures var item := old(world).items[id];
              world.items[id] == item.(record := if faults.failed then item.record else item.record.(status := Failed),
                                       queue := Some(AttemptFails(item.queue.value, world.backupAttempts)), at := BIdle)
      ensures world.notices == if faults.failed || faults.notice then old(world).notices
                               else AddNotice(old(world).notices, Notice(id, false))
    {
      var item := world.items[id];
      if faults.failed {
        StepsGiveUpLost(calm, world, id);
        calm := false;
      } else {
        StepsGiveUp(calm, world, id, !faults.notice);
        item := item.(record := Patched(item.record, NOTHING.(status := Some(Failed))));
        if !faults.notice {
          world := world.(notices := AddNotice(world.notices, Notice(id, false)));
        }
      }
      world := With(world, id, item.(queue := Some(AttemptFails(item.queue.value, world.backupAttempts)), at := BIdle));
    }

    /** The whole try block but for what follows the enqueue. */
    method TryBackup(id: JobId, reply: Reply, faults: BackupFaults) returns (ok: bool)
      requires Valid() && Holding(world, id) && world.items[id].at.BStarted?
      modifies this
      ensures Valid() && (old(calm) ==> calm)
      ensures ok <==> Enqueues(reply, faults)
      ensures var local := if Replies(reply, faults) then old(world).local[reply.result.filePath := reply.content] else old(world).local;
              && (ok ==> world == Queueing(old(world), id, reply.result).(local := local))
              && (!ok ==> Held(old(world), id, world) && world == old(world).(items := world.items, local := local))
      ensures world.items[id].record == Written(old(world).items[id].record, reply, faults)
    {
      ok := Obtain(id, reply, faults);
      if ok {
        ghost var item := world.items[id];
        ok := Publish(id, reply.result, faults);
        Flat(old(world).items, id, item, world.items[id]);
      }
    }

    /** The whole handler, with what the queue does when it returns or throws. */
    method HandleBackupJob(id: JobId, reply: Reply, faults: BackupFaults) returns (ok: bool)
      requires Valid() && Holding(world, id) && world.items[id].at.BStarted?
      modifies this
      ensures Valid() && (old(calm) && (ok || !faults.failed) ==> calm)
      ensures ok <==> reply.Archived? && !faults.running && !faults.success && !faults.enqueue && !faults.finish
      ensures Only(old(world), id, world) && world.remote == old(world).remote
      ensures world.backupAttempts == old(world).backupAttempts && world.storageAttempts == old(world).storageAttempts
      ensures world.local == if Replies(reply, faults) then old(world).local[reply.result.filePath := reply.content] else old(world).local
      ensures var item, now := old(world).items[id], world.items[id];
              && now.at.BIdle? && now.s3 == item.s3 && now.storageAt == item.storageAt
              && now.queue == Some(if ok then item.queue.value.(state := Completed) else AttemptFails(item.queue.value, world.backupAttempts))
              && now.storage == (if Enqueues(reply, faults) && item.s3 then Uploading(item, reply.result).storage else item.storage)
              && var written := Written(item.record, reply, faults);
                 now.record == if ok || faults.failed then written else written.(status := Failed)
      ensures var offered := if Enqueues(reply, faults) && !old(world).items[id].s3 then AddNotice(old(world).notices, Notice(id, true))
                             else old(world).notices;
              world.notices == if ok || faults.failed || faults.notice then offered else AddNotice(offered, Notice(id, false))
    {
      ok := TryBackup(id, reply, faults);
      ghost var ran := world.items[id];
      if ok && !faults.finish {
        var item := world.items[id];
        StepComplete(calm, world, id);
        world := With(world, id, item.(queue := Some(item.queue.value.(state := Completed)), at := BIdle));
      } else {
        ok := false;
        GiveUp(id, faults);
      }
      Flat(old(world).items, id, ran, world.items[id]);
    }

    // ---------- The storage handler ----------

    /** Upload and record, unless the row already names this object; false when a call threw. */
    method EnsureUploaded(id: JobId, existingJob: Record, faults: StorageFaults) returns (ok: bool)
      requires Valid() && Storing(world, id) && world.items[id].storageAt == SRead(existingJob) && existingJob == world.items[id].record
      modifies this
      ensures Valid() && (old(calm) ==> calm)
      ensures ok <==> AlreadyStored(old(world), id) || (Uploads(old(world), id, faults) && !faults.record)
      ensures Stored(old(world), id, AlreadyStored(old(world), id) || !Uploads(old(world), id, faults), faults.record, world)
      ensures world.notices == old(world).notices
      ensures !world.items[id].storageAt.SIdle? && (ok ==> world.items[id].storageAt.SRecorded?)
    {
      ghost var items := world.items;
      var item := world.items[id];
      var job := item.storage.value;
      if existingJob.storagePath == Some(job.fileName) {
        StepSkip(calm, world, id);
        world := With(world, id, item.(storageAt := SRecorded));
        return true;
      }
      if faults.upload || job.filePath !in world.local {
        assert items[id := items[id]] == items;
        return false;
      }
      StepUpload(calm, world, id);
      world := With(world, id, item.(storageAt := SUploaded(existingJob))).(remote := world.remote[job.fileName := world.local[job.filePath]]);
      if faults.record {
        return false;
      }
      StepRecord(calm, world, id);
      Flat(items, id, world.items[id], item.(record := Patched(item.record, UploadPatch(job.fileName, existingJob)), storageAt := SRecorded));
      world := With(world, id, item.(record := Patched(item.record, UploadPatch(job.fileName, existingJob)), storageAt := SRecorded));
      ok := true;
    }

    /** The read, and what follows from it; false when a call threw. */
    method ReadAndStore(id: JobId, faults: StorageFaults) returns (ok: bool)
      requires Valid() && Storing(world, id) && world.items[id].storageAt.SStarted?
      modifies this
      ensures Valid() && (old(calm) ==> calm)
      ensures ok <==> !faults.read && (AlreadyStored(old(world), id) || (Uploads(old(world), id, faults) && !faults.record))
      ensures Stored(old(world), id, Untouched(old(world), id, faults), faults.record, world)
      ensures world.notices == old(world).notices
      ensures !world.items[id].storageAt.SIdle? && (ok ==> world.items[id].storageAt.SRecorded?)
    {
      if faults.read {
        assert world.items[id := world.items[id]] == world.items;
        return false;
      }
      var existingJob := world.items[id].record;
      StepRead(calm, world, id);
      world := With(world, id, world.items[id].(storageAt := SRead(existingJob)));
      ghost var read := world;
      ok := EnsureUploaded(id, existingJob, faults);
      StoredAfterRead(old(world), id, read, Untouched(old(world), id, faults), faults.record, world);
    }

    /** Everything before the queue's answer: `notified` says that the notice was queued, `ok` that nothing threw. */
    method TryStorage(id: JobId, faults: StorageFaults) returns (notified: bool, ok: bool)
      requires Valid() && Storing(world, id) && world.items[id].storageAt.SStarted?
      modifies this
      ensures Valid() && (old(calm) ==> calm)
      ensures notified <==> Announces(old(world), id, faults)
      ensures ok <==> notified && !faults.finish
      ensures Stored(old(world), id, Untouched(old(world), id, faults), faults.record, world)
      ensures world.notices == if notified then AddNotice(old(world).notices, Notice(id, true)) else old(world).notices
      ensures !world.items[id].storageAt.SIdle? && (notified ==> world.items[id].storageAt.SNotified?)
    {
      var stored := ReadAndStore(id, faults);
      if !stored || faults.notice {
        return false, false;
      }
      var recorded := world;
      var item := recorded.items[id].(storageAt := SNotified);
      StepNotify(calm, recorded, id);
      StoredThenNotified(old(world), id, recorded, Untouched(old(world), id, faults), faults.record, Notice(id, true));
      world := With(recorded, id, item).(notices := AddNotice(recorded.notices, Notice(id, true)));
      return true, !faults.finish;
    }

    method HandleStorageJob(id: JobId, faults: StorageFaults) returns (ok: bool)
      requires Valid() && Storing(world, id) && world.items[id].storageAt.SStarted?
      modifies this
      ensures Valid() && (old(calm) ==> calm)
      ensures var item := old(world).items[id];
              var job := item.storage.value;
              ok <==> !faults.read && !faults.notice && !faults.finish
                      && (item.record.storagePath == Some(job.fileName)
                          || (!faults.upload && job.filePath in old(world).local && !faults.record))
      ensures Only(old(world), id, world) && world.local == old(world).local
      ensures world.backupAttempts == old(world).backupAttempts && world.storageAttempts == old(world).storageAttempts
      ensures var item, now := old(world).items[id], world.items[id];
              var job := item.storage.value;
              var q := if ok then job.queue.(state := Completed) else AttemptFails(job.queue, world.storageAttempts);
              var recorded := item.record.(storagePath := Some(job.fileName), metadata := item.record.metadata.(upload := Some(job.fileName)));
              && now == item.(storage := Some(job.(queue := q)), storageAt := SIdle, record := now.record)
              && now.record == (if Untouched(old(world), id, faults) || faults.record then item.record else recorded)
              && (Untouched(old(world), id, faults) || job.filePath in old(world).local)
              && world.remote == (if Untouched(old(world), id, faults) then old(world).remote
                                  else old(world).remote[job.fileName := old(world).local[job.filePath]])
      ensures world.notices == if Announces(old(world), id, faults) then AddNotice(old(world).notices, Notice(id, true)) else old(world).notices
    {
      var notified;
      notified, ok := TryStorage(id, faults);
      var item := world.items[id];
      var job := item.storage.value;
      var q := if ok then job.queue.(state := Completed) else AttemptFails(job.queue, world.storageAttempts);
      StepSettle(calm, world, id, ok);
      Flat(old(world).items, id, item, item.(storage := Some(job.(queue := q)), storageAt := SIdle));
      world := With(world, id, item.(storage := Some(job.(queue := q)), storageAt := SIdle));
    }
  }

  // ---------- What the contracts speak of ----------

  /** No other item has changed. */
  predicate Only(s: State, id: JobId, t: State) {
    id in t.items && t.items == s.items[id := t.items[id]]
  }

  function NewItem(s3: bool, metadata: string): Item {
    Item(s3, Record(Running, None, None, Metadata(metadata, None)), Adding, None, BIdle, None, SIdle, false, metadata)
  }

  function Submitted(s3: bool, metadata: string): Item {
    NewItem(s3, metadata).(intake := FirstWait, queue := Some(QueueJob(Waiting, 0)))
  }

  /** The jobs `getWaitingCount` counts. */
  function WaitingJobs(s: State): set<JobId> {
    set id | id in s.items && s.items[id].queue.Some? && s.items[id].queue.value.state.Waiting?
  }

  /** A cancelled or taken job does not wait any more. */
  lemma OneFewerWaits(s: State, e: Event)
    requires Enabled(s, e) && ((e.Cancel? && e.removed) || e.Pick?)
    ensures WaitingJobs(Next(s, e)) == WaitingJobs(s) - {e.id}
  {
    var t := Next(s, e);
    forall j ensures j in WaitingJobs(t) <==> j in WaitingJobs(s) && j != e.id {
      StepTouchesOneItem(s, e, j);
    }
  }

  lemma OneMoreWaits(s: State, id: JobId, t: State)
    requires id !in s.items && id in t.items && t.items[id].queue == Some(QueueJob(Waiting, 0))
    requires t == With(s, id, t.items[id])
    ensures WaitingJobs(t) == WaitingJobs(s) + {id} && |WaitingJobs(t)| == |WaitingJobs(s)| + 1
  {
    assert WaitingJobs(t) == WaitingJobs(s) + {id};
  }

  /** The attempt gets as far as the service's reply. */
  predicate Replies(reply: Reply, faults: BackupFaults) {
    reply.Archived? && !faults.running
  }

  /** The attempt gets as far as queueing what follows. */
  predicate Enqueues(reply: Reply, faults: BackupFaults) {
    Replies(reply, faults) && !faults.success && !faults.enqueue
  }

  /** What the try block writes into the record before a call of it throws: nothing, RUNNING, or the SUCCESS row. */
  function Written(r: Record, reply: Reply, faults: BackupFaults): Record {
    if faults.running then r
    else if reply.Refused? || faults.success then r.(status := Running)
    else Record(Succeeded, Some(reply.result.fileName), r.storagePath, Metadata(reply.result.metadata, None))
  }

  /** An attempt on its way: nothing has been queued for the item since `s`. */
  predicate Held(s: State, id: JobId, t: State)
    requires id in s.items
  {
    && Only(s, id, t) && Trying(t.items[id].at)
    && var item, now := s.items[id], t.items[id];
       && now.queue == item.queue && now.storage == item.storage && now.s3 == item.s3 && now.storageAt == item.storageAt
       && now.record.storagePath == item.record.storagePath
  }

  function Uploading(item: Item, result: Artifact): Item {
    if item.storage.Some? then item
    else item.(storage := Some(StorageJob(result.fileName, result.filePath, QueueJob(Waiting, 0))))
  }

  function SuccessRow(r: Record, result: Artifact): Record {
    r.(status := Succeeded, fileName := Some(result.fileName), metadata := Metadata(result.metadata, None))
  }

  /** The handler has its archive. */
  function Replied(s: State, id: JobId, result: Artifact, content: Bytes): State
    requires id in s.items
  {
    With(s, id, s.items[id].(record := s.items[id].record.(status := Running), at := BReplied(result)))
    .(local := s.local[result.filePath := content])
  }

  /** The SUCCESS row is written and the next job is queued. */
  function Queueing(s: State, id: JobId, r: Artifact): State
    requires id in s.items
  {
    var item := s.items[id];
    var after := item.(record := SuccessRow(item.record, r), at := BQueued, wrote := true, left := r.metadata);
    With(s, id, if item.s3 then Uploading(after, r) else after)
    .(notices := if item.s3 then s.notices else AddNotice(s.notices, Notice(id, true)))
  }

  predicate AlreadyStored(s: State, id: JobId)
    requires id in s.items && s.items[id].storage.Some?
  {
    s.items[id].record.storagePath == Some(s.items[id].storage.value.fileName)
  }

  /** An upload also throws when the local file is gone. */
  predicate Uploads(s: State, id: JobId, faults: StorageFaults)
    requires id in s.items && s.items[id].storage.Some?
  {
    !faults.upload && s.items[id].storage.value.filePath in s.local
  }

  predicate Untouched(s: State, id: JobId, faults: StorageFaults)
    requires id in s.items && s.items[id].storage.Some?
  {
    AlreadyStored(s, id) || faults.read || !Uploads(s, id, faults)
  }

  /** The storage attempt gets as far as queueing the success notice. */
  predicate Announces(s: State, id: JobId, faults: StorageFaults)
    requires id in s.items && s.items[id].storage.Some?
  {
    !faults.read && (AlreadyStored(s, id) || (Uploads(s, id, faults) && !faults.record)) && !faults.notice
  }

  /** What a storage attempt leaves in object store and record: nothing when it was `idle`, the object alone when
      the record's update threw, else both. */
  ghost predicate Stored(s: State, id: JobId, idle: bool, recordThrew: bool, t: State)
    requires id in s.items && s.items[id].storage.Some?
  {
    var item := s.items[id];
    var job := item.storage.value;
    && Only(s, id, t) && t.items[id] == item.(record := t.items[id].record, storageAt := t.items[id].storageAt)
    && (idle || job.filePath in s.local)
    && t == s.(items := t.items, notices := t.notices,
               remote := if idle then s.remote else s.remote[job.fileName := s.local[job.filePath]])
    && t.items[id].record ==
       if idle || recordThrew then item.record
       else item.record.(storagePath := Some(job.fileName), metadata := item.record.metadata.(upload := Some(job.fileName)))
  }

  lemma StoredAfterRead(s: State, id: JobId, read: State, idle: bool, recordThrew: bool, t: State)
    requires Storing(s, id) && read == With(s, id, s.items[id].(storageAt := SRead(s.items[id].record)))
    requires Stored(read, id, idle, recordThrew, t)
    ensures Stored(s, id, idle, recordThrew, t)
  {
    Flat(s.items, id, read.items[id], t.items[id]);
  }

  lemma StoredThenNotified(s: State, id: JobId, m: State, idle: bool, recordThrew: bool, n: Notice)
    requires Storing(s, id) && Stored(s, id, idle, recordThrew, m)
    ensures Stored(s, id, idle, recordThrew, With(m, id, m.items[id].(storageAt := SNotified)).(notices := AddNotice(m.notices, n)))
  {
    Flat(s.items, id, m.items[id], m.items[id].(storageAt := SNotified));
  }
}
