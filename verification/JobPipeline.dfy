/**
 The asynchronous pipeline: orchestrator, backup worker, storage worker, notification queue and the metadata
 record. Handlers run step by step; any step may be followed by an exception, a stop or other handlers' steps.
 */
module JobPipeline {
  import opened Wrappers
  import opened JobRecords

  type Name = string
  type Bytes = seq<bv8>

  // ---------- Records ----------

  /** `worker` is everything the backup worker put into the metadata column, `upload` the storage worker's key in it. */
  datatype Metadata = Metadata(worker: string, upload: Option<Name>)

  datatype Record = Record(status: Status, fileName: Option<Name>, storagePath: Option<Name>, metadata: Metadata)

  /** What a database service answers to a successful backup. */
  datatype Artifact = Artifact(fileName: Name, filePath: Path, metadata: string)

  // ---------- Queues ----------

  datatype QueueState = Waiting | Active | Delayed | Completed | Exhausted

  datatype QueueJob = QueueJob(state: QueueState, attemptsMade: nat)

  /** An attempt that throws is retried after a delay until the attempts are used up. */
  function AttemptFails(q: QueueJob, attempts: nat): QueueJob {
    QueueJob(if q.attemptsMade + 1 < attempts then Delayed else Exhausted, q.attemptsMade + 1)
  }

  /** The storage job carries the artifact of the attempt that queued it. */
  datatype StorageJob = StorageJob(fileName: Name, filePath: Path, queue: QueueJob)

  datatype Notice = Notice(id: JobId, success: bool)

  predicate Queued(notices: seq<Notice>, id: JobId) {
    exists n :: 0 <= n < |notices| && notices[n].id == id
  }

  /** Adding under a job id the queue still retains is ignored. */
  function AddNotice(notices: seq<Notice>, n: Notice): seq<Notice> {
    if Queued(notices, n.id) then notices else notices + [n]
  }

  // ---------- State ----------

  /** Where the backup handler of an id stands. */
  datatype BackupStep = BIdle | BStarted | BRunning | BReplied(result: Artifact) | BWrote(result: Artifact) | BQueued | BCaught | BMarked

  /** Where the storage handler of an id stands; `seen` is the record it read at its start. */
  datatype StorageStep = SIdle | SStarted | SRead(seen: Record) | SUploaded(seen: Record) | SRecorded | SNotified

  /** The submitting handler created the record and has not called the queue yet; the job has been added and no
      worker has taken it; or neither any more. */
  datatype Intake = Adding | FirstWait | Past

  /** `wrote` and `left` are history: whether SUCCESS was ever written, and the metadata it last left. */
  datatype Item = Item(s3: bool, record: Record, intake: Intake, queue: Option<QueueJob>, at: BackupStep,
                       storage: Option<StorageJob>, storageAt: StorageStep, wrote: bool, left: string)

  datatype State = State(items: map<JobId, Item>, local: map<Path, Bytes>, remote: map<Name, Bytes>,
                         notices: seq<Notice>, backupAttempts: nat, storageAttempts: nat)

  datatype Event =
    | CreateRecord(id: JobId, s3: bool, metadata: string)
    | Enqueue(id: JobId)
    | EnqueueFails(id: JobId)
    | EnqueueLost(id: JobId)
    | Pick(id: JobId)
    | WriteRunning(id: JobId)
    | ServiceReply(id: JobId, result: Artifact, content: Bytes)
    | WriteSuccess(id: JobId)
    | QueueNext(id: JobId)
    | Complete(id: JobId)
    | Throw(id: JobId)
    | WriteFailed(id: JobId)
    | WriteFailedLost(id: JobId)
    | Fail(id: JobId, notified: bool)
    | Crash(id: JobId)
    | Cancel(id: JobId, removed: bool, recorded: bool)
    | StoragePick(id: JobId)
    | StorageRead(id: JobId)
    | StorageUpload(id: JobId)
    | StorageSkip(id: JobId)
    | StorageRecord(id: JobId)
    | StorageNotify(id: JobId)
    | StorageComplete(id: JobId)
    | StorageThrow(id: JobId)
    | StorageCrash(id: JobId)

  predicate Pickable(q: Option<QueueJob>) {
    q.Some? && (q.value.state.Waiting? || q.value.state.Delayed?)
  }

  predicate IsActive(q: Option<QueueJob>) {
    q.Some? && q.value.state.Active?
  }

  function StorageQueue(item: Item): Option<QueueJob> {
    if item.storage.Some? then Some(item.storage.value.queue) else None
  }

  /** `Cancel` says which of its two calls went through: removing the queue job, which a worker's lock prevents, and
      the write of the record. */
  predicate Enabled(s: State, e: Event) {
    if e.CreateRecord? then e.id !in s.items
    else
      e.id in s.items && var item := s.items[e.id];
      match e
      case CreateRecord(_, _, _) => true
      case Enqueue(_) => item.intake.Adding?
      case EnqueueFails(_) => item.intake.Adding?
      case EnqueueLost(_) => item.intake.Adding?
      case Pick(_) => Pickable(item.queue) && item.at.BIdle?
      case WriteRunning(_) => IsActive(item.queue) && item.at.BStarted?
      case ServiceReply(_, _, _) => IsActive(item.queue) && item.at.BRunning?
      case WriteSuccess(_) => IsActive(item.queue) && item.at.BReplied?
      case QueueNext(_) => IsActive(item.queue) && item.at.BWrote?
      case Complete(_) => IsActive(item.queue) && item.at.BQueued?
      case Throw(_) => IsActive(item.queue) && !item.at.BIdle? && !item.at.BCaught? && !item.at.BMarked?
      case WriteFailed(_) => IsActive(item.queue) && item.at.BCaught?
      case WriteFailedLost(_) => IsActive(item.queue) && item.at.BCaught?
      case Fail(_, _) => IsActive(item.queue) && item.at.BMarked?
      case Crash(_) => IsActive(item.queue)
      case Cancel(_, _, _) => true
      case StoragePick(_) => Pickable(StorageQueue(item)) && item.storageAt.SIdle?
      case StorageRead(_) => item.storage.Some? && item.storageAt.SStarted?
      case StorageUpload(_) =>
        item.storage.Some? && item.storageAt.SRead? && item.storageAt.seen.storagePath != Some(item.storage.value.fileName)
        && item.storage.value.filePath in s.local
      case StorageSkip(_) =>
        item.storage.Some? && item.storageAt.SRead? && item.storageAt.seen.storagePath == Some(item.storage.value.fileName)
      case StorageRecord(_) => item.storage.Some? && item.storageAt.SUploaded?
      case StorageNotify(_) => item.storage.Some? && item.storageAt.SRecorded?
      case StorageComplete(_) => item.storage.Some? && item.storageAt.SNotified?
      case StorageThrow(_) => item.storage.Some? && !item.storageAt.SIdle?
      case StorageCrash(_) => item.storage.Some? && !item.storageAt.SIdle?
  }

  /** The storage job is added once; later adds under its fixed id are ignored. */
  function WithStorageJob(item: Item, r: Artifact): Item {
    if item.storage.Some? then item
    else item.(storage := Some(StorageJob(r.fileName, r.filePath, QueueJob(Waiting, 0))))
  }

  function WithQueue(item: Item, q: QueueJob): Item {
    item.(queue := Some(q))
  }

  function WithStorageQueue(item: Item, q: QueueJob): Item {
    if item.storage.None? then item else item.(storage := Some(item.storage.value.(queue := q)))
  }

  /** The effect of an event on the item it belongs to. */
  function ItemNext(s: State, e: Event): Item
    requires Enabled(s, e) && !e.CreateRecord?
  {
    var item := s.items[e.id];
    match e
    case Enqueue(_) => WithQueue(item, QueueJob(Waiting, 0)).(intake := FirstWait)
    case EnqueueFails(_) => item.(record := item.record.(status := Failed), intake := Past)
    case EnqueueLost(_) => item.(intake := Past)
    case Pick(_) => WithQueue(item, item.queue.value.(state := Active)).(at := BStarted, intake := Past)
    case WriteRunning(_) => item.(record := item.record.(status := Running), at := BRunning)
    case ServiceReply(_, result, _) => item.(at := BReplied(result))
    case WriteSuccess(_) =>
      var r := item.at.result;
      item.(record := item.record.(status := Succeeded, fileName := Some(r.fileName), metadata := Metadata(r.metadata, None)),
            at := BWrote(r), wrote := true, left := r.metadata)
    case QueueNext(_) => (if item.s3 then WithStorageJob(item, item.at.result) else item).(at := BQueued)
    case Complete(_) => WithQueue(item, item.queue.value.(state := Completed)).(at := BIdle)
    case Throw(_) => item.(at := BCaught)
    case WriteFailed(_) => item.(record := item.record.(status := Failed), at := BMarked)
    case WriteFailedLost(_) => WithQueue(item, AttemptFails(item.queue.value, s.backupAttempts)).(at := BIdle)
    case Fail(_, _) => WithQueue(item, AttemptFails(item.queue.value, s.backupAttempts)).(at := BIdle)
    case Crash(_) => WithQueue(item, item.queue.value.(state := Waiting)).(at := BIdle)
    case Cancel(_, removed, recorded) =>
      item.(record := if recorded then item.record.(status := Cancelled) else item.record,
            queue := if !removed || IsActive(item.queue) then item.queue else None)
    case StoragePick(_) => WithStorageQueue(item, item.storage.value.queue.(state := Active)).(storageAt := SStarted)
    case StorageRead(_) => item.(storageAt := SRead(item.record))
    case StorageUpload(_) => item.(storageAt := SUploaded(item.storageAt.seen))
    case StorageSkip(_) => item.(storageAt := SRecorded)
    case StorageRecord(_) =>
      var name := item.storage.value.fileName;
      item.(record := item.record.(storagePath := Some(name), metadata := item.storageAt.seen.metadata.(upload := Some(name))),
            storageAt := SRecorded)
    case StorageNotify(_) => item.(storageAt := SNotified)
    case StorageComplete(_) => WithStorageQueue(item, item.storage.value.queue.(state := Completed)).(storageAt := SIdle)
    case StorageThrow(_) => WithStorageQueue(item, AttemptFails(item.storage.value.queue, s.storageAttempts)).(storageAt := SIdle)
    case StorageCrash(_) => WithStorageQueue(item, item.storage.value.queue.(state := Waiting)).(storageAt := SIdle)
  }

  function NoticeNext(s: State, e: Event): seq<Notice>
    requires Enabled(s, e)
  {
    match e
    case QueueNext(id) => if s.items[id].s3 then s.notices else AddNotice(s.notices, Notice(id, true))
    case Fail(id, notified) => if notified then AddNotice(s.notices, Notice(id, false)) else s.notices
    case StorageNotify(id) => AddNotice(s.notices, Notice(id, true))
    case _ => s.notices
  }

  function Next(s: State, e: Event): State
    requires Enabled(s, e)
  {
    var items' :=
      if e.CreateRecord?
      then s.items[e.id := Item(e.s3, Record(Running, None, None, Metadata(e.metadata, None)), Adding, None, BIdle, None, SIdle, false, e.metadata)]
      else s.items[e.id := ItemNext(s, e)];
    s.(items := items',
       local := if e.ServiceReply? then s.local[e.result.filePath := e.content] else s.local,
       remote := if e.StorageUpload? then var job := s.items[e.id].storage.value; s.remote[job.fileName := s.local[job.filePath]]
                 else s.remote,
       notices := NoticeNext(s, e))
  }

  predicate Initial(s: State) {
    s.items == map[] && s.notices == [] && s.local == map[] && s.remote == map[]
  }

  ghost predicate Run(states: seq<State>, events: seq<Event>) {
    && |states| == |events| + 1
    && Initial(states[0])
    && forall n {:trigger events[n]} :: 0 <= n < |events| ==> Enabled(states[n], events[n]) && states[n + 1] == Next(states[n], events[n])
  }

  /** A step touches one item; objects and files are never removed. */
  lemma StepTouchesOneItem(s: State, e: Event, id: JobId)
    requires Enabled(s, e)
    ensures id in s.items ==> id in Next(s, e).items && (id != e.id ==> Next(s, e).items[id] == s.items[id])
    ensures id in Next(s, e).items && id != e.id ==> id in s.items
    ensures s.remote.Keys <= Next(s, e).remote.Keys && s.local.Keys <= Next(s, e).local.Keys
  {
  }

  predicate StorageEvent(e: Event) {
    e.StoragePick? || e.StorageRead? || e.StorageUpload? || e.StorageSkip? || e.StorageRecord?
    || e.StorageNotify? || e.StorageComplete? || e.StorageThrow? || e.StorageCrash?
  }

  // ---------- Record and queue agree ----------

  /** No metadata write is lost, no worker stops part-way, nobody cancels. */
  predicate Undisturbed(e: Event) {
    !e.WriteFailedLost? && !e.Crash? && !e.Cancel?
  }

  ghost predicate Agrees(item: Item) {
    && (IsActive(item.queue) <==> !item.at.BIdle?)
    && (item.at.BWrote? || item.at.BQueued? ==> item.record.status.Succeeded?)
    && (item.at.BMarked? ==> item.record.status.Failed?)
    && (item.queue.Some? && item.queue.value.state.Completed? ==> item.record.status.Succeeded?)
    && (item.queue.Some? && item.queue.value.state.Exhausted? ==> item.record.status.Failed?)
    && (item.queue.Some? && item.queue.value.state.Delayed? ==> item.record.status.Failed?)
    && (item.queue.None? ==> !item.wrote && !item.record.status.Succeeded?)
    && (item.intake.Adding? ==> item.queue.None?)
  }

  ghost predicate AllAgree(s: State) {
    forall id {:trigger s.items[id]} :: id in s.items ==> Agrees(s.items[id])
  }

  lemma StepKeepsAgreement(s: State, e: Event)
    requires AllAgree(s) && Enabled(s, e) && Undisturbed(e)
    ensures AllAgree(Next(s, e))
  {
    var t := Next(s, e);
    forall id | id in t.items ensures Agrees(t.items[id]) {
      StepTouchesOneItem(s, e, id);
      if id in s.items {
        assert Agrees(s.items[id]);
        if id == e.id { OwnStepKeepsAgreement(s, e); }
      }
    }
  }

  lemma OwnStepKeepsAgreement(s: State, e: Event)
    requires Enabled(s, e) && Undisturbed(e) && !e.CreateRecord? && Agrees(s.items[e.id])
    ensures Agrees(ItemNext(s, e))
  {
    if StorageEvent(e) { StorageKeepsStatus(s, e); }
  }

  lemma StorageKeepsStatus(s: State, e: Event)
    requires Enabled(s, e) && StorageEvent(e)
    ensures var was, now := s.items[e.id], ItemNext(s, e);
            now.record.status == was.record.status && now.queue == was.queue && now.at == was.at && now.wrote == was.wrote && now.intake == was.intake
  {
  }

  /** In an undisturbed run a completed queue job has a successful record, and a job that used up its
      attempts a failed one, even if what failed came after the SUCCESS write. */
  lemma {:induction false} QueueAndRecordAgree(states: seq<State>, events: seq<Event>, n: nat)
    requires Run(states, events) && n < |states|
    requires forall k {:trigger events[k]} :: 0 <= k < n ==> Undisturbed(events[k])
    ensures AllAgree(states[n])
  {
    if n > 0 {
      QueueAndRecordAgree(states, events, n - 1);
      StepKeepsAgreement(states[n - 1], events[n - 1]);
    }
  }

  // ---------- Notifications ----------

  ghost predicate OneNoticeEach(notices: seq<Notice>) {
    forall m, n :: 0 <= m < n < |notices| ==> notices[m].id != notices[n].id
  }

  /** The upload of the storage job is recorded, and the object is there. */
  ghost predicate UploadRecorded(s: State, item: Item) {
    && item.storage.Some? && item.record.storagePath == Some(item.storage.value.fileName)
    && item.storage.value.fileName in s.remote
  }

  ghost predicate StorageOrder(s: State, item: Item) {
    && (item.at.BWrote? || item.at.BQueued? ==> item.wrote)
    && (item.storage.Some? ==> item.wrote)
    && (item.storage.None? ==> item.storageAt.SIdle? && item.record.storagePath.None?)
    && (item.record.storagePath.Some? ==> UploadRecorded(s, item))
    && (item.storageAt.SRead? && item.storageAt.seen.storagePath.Some? ==> item.storageAt.seen.storagePath == item.record.storagePath)
    && (item.storageAt.SUploaded? ==> item.storage.value.fileName in s.remote)
    && (item.storageAt.SRecorded? || item.storageAt.SNotified? ==> UploadRecorded(s, item))
    && (item.storage.Some? && item.storage.value.queue.state.Completed? ==> UploadRecorded(s, item))
  }

  ghost predicate NoticesInOrder(s: State) {
    && OneNoticeEach(s.notices)
    && (forall id {:trigger s.items[id]} :: id in s.items ==> StorageOrder(s, s.items[id]))
    && (forall n {:trigger s.notices[n]} :: 0 <= n < |s.notices| && s.notices[n].success ==>
          s.notices[n].id in s.items && var item := s.items[s.notices[n].id];
          item.wrote && (item.s3 ==> UploadRecorded(s, item)))
  }

  lemma StorageStepKeepsOrder(s: State, e: Event)
    requires Enabled(s, e) && StorageEvent(e) && StorageOrder(s, s.items[e.id])
    ensures StorageOrder(Next(s, e), ItemNext(s, e))
  {
    if e.StorageUpload? { UploadKeepsOrder(s, e); }
    else { assert Next(s, e).remote == s.remote; }
  }

  lemma UploadKeepsOrder(s: State, e: Event)
    requires Enabled(s, e) && e.StorageUpload? && StorageOrder(s, s.items[e.id])
    ensures StorageOrder(Next(s, e), ItemNext(s, e))
  {
    StepTouchesOneItem(s, e, e.id);
  }

  lemma BackupStepKeepsOrder(s: State, e: Event)
    requires Enabled(s, e) && !StorageEvent(e) && !e.CreateRecord? && StorageOrder(s, s.items[e.id])
    ensures StorageOrder(Next(s, e), ItemNext(s, e))
  {
    assert Next(s, e).remote == s.remote;
  }

  lemma StepKeepsItemOrder(s: State, e: Event, id: JobId)
    requires NoticesInOrder(s) && Enabled(s, e) && id in Next(s, e).items
    ensures StorageOrder(Next(s, e), Next(s, e).items[id])
  {
    StepTouchesOneItem(s, e, id);
    if id in s.items {
      assert StorageOrder(s, s.items[id]);
      if id == e.id {
        if StorageEvent(e) { StorageStepKeepsOrder(s, e); } else { BackupStepKeepsOrder(s, e); }
      }
    }
  }

  lemma RecordedStaysRecorded(s: State, e: Event, id: JobId)
    requires Enabled(s, e) && id in s.items && StorageOrder(s, s.items[id])
    requires s.items[id].wrote && (s.items[id].s3 ==> UploadRecorded(s, s.items[id]))
    ensures var t := Next(s, e); t.items[id].wrote && (t.items[id].s3 ==> UploadRecorded(t, t.items[id]))
  {
    StepTouchesOneItem(s, e, id);
  }

  lemma StepKeepsNoticeOrder(s: State, e: Event)
    requires NoticesInOrder(s) && Enabled(s, e)
    ensures NoticesInOrder(Next(s, e))
  {
    var t := Next(s, e);
    forall id | id in t.items ensures StorageOrder(t, t.items[id]) { StepKeepsItemOrder(s, e, id); }
    forall n | 0 <= n < |t.notices| && t.notices[n].success
      ensures t.notices[n].id in t.items && t.items[t.notices[n].id].wrote
              && (t.items[t.notices[n].id].s3 ==> UploadRecorded(t, t.items[t.notices[n].id]))
    {
      if n < |s.notices| {
        assert t.notices[n] == s.notices[n];
        assert StorageOrder(s, s.items[s.notices[n].id]);
        RecordedStaysRecorded(s, e, s.notices[n].id);
      } else {
        assert StorageOrder(s, s.items[e.id]);
      }
    }
  }

  /** Over all retries, stops and cancellations: at most one notification per backup id is queued, and a
      success notification of an S3 backup comes only after the SUCCESS write and the recorded upload. */
  lemma {:induction false} SuccessIsNotifiedLast(states: seq<State>, events: seq<Event>, n: nat)
    requires Run(states, events) && n < |states|
    ensures NoticesInOrder(states[n])
  {
    if n > 0 {
      SuccessIsNotifiedLast(states, events, n - 1);
      StepKeepsNoticeOrder(states[n - 1], events[n - 1]);
    }
  }

  // ---------- Uploads ----------

  /** The object names an item may still upload under. */
  function Holds(item: Item): set<Name> {
    (if item.storage.Some? then {item.storage.value.fileName} else {})
    + (if item.at.BReplied? || item.at.BWrote? then {item.at.result.fileName} else {})
  }

  predicate NameFree(s: State, name: Name) {
    forall id :: id in s.items ==> name !in Holds(s.items[id])
  }

  /** A new artifact gets a path and a name of its own. */
  predicate FreshArtifact(s: State, e: Event) {
    e.ServiceReply? ==> e.result.filePath !in s.local && e.result.fileName !in s.remote && NameFree(s, e.result.fileName)
  }

  ghost predicate ArtifactOk(s: State, item: Item) {
    && (item.at.BReplied? || item.at.BWrote? ==> item.at.result.filePath in s.local && (item.storage.None? ==> item.at.result.fileName !in s.remote))
    && (item.storage.Some? ==> item.storage.value.filePath in s.local)
    && (item.storage.Some? && item.storage.value.fileName in s.remote ==>
          s.remote[item.storage.value.fileName] == s.local[item.storage.value.filePath])
    && (item.storage.Some? && (item.at.BReplied? || item.at.BWrote?) ==> item.at.result.fileName != item.storage.value.fileName)
  }

  ghost predicate UploadsOk(s: State) {
    && NoticesInOrder(s)
    && (forall id {:trigger s.items[id]} :: id in s.items ==> ArtifactOk(s, s.items[id]))
    && (forall i, j {:trigger s.items[i], s.items[j]} :: i in s.items && j in s.items && i != j ==> Holds(s.items[i]) !! Holds(s.items[j]))
  }

  lemma OthersHoldOtherNames(s: State, i: JobId, j: JobId, name: Name)
    requires UploadsOk(s) && i in s.items && j in s.items && i != j && name in Holds(s.items[i])
    ensures name !in Holds(s.items[j])
  {
    assert Holds(s.items[i]) !! Holds(s.items[j]);
  }

  lemma OtherStepKeepsArtifact(s: State, e: Event, id: JobId)
    requires UploadsOk(s) && Enabled(s, e) && FreshArtifact(s, e) && id in s.items && id != e.id
    ensures ArtifactOk(Next(s, e), Next(s, e).items[id])
  {
    StepTouchesOneItem(s, e, id);
    assert ArtifactOk(s, s.items[id]) && StorageOrder(s, s.items[id]);
    if e.StorageUpload? {
      OthersHoldOtherNames(s, e.id, id, s.items[e.id].storage.value.fileName);
    }
  }

  lemma OwnStorageStepKeepsArtifact(s: State, e: Event)
    requires Enabled(s, e) && StorageEvent(e) && StorageOrder(s, s.items[e.id]) && ArtifactOk(s, s.items[e.id])
    ensures ArtifactOk(Next(s, e), ItemNext(s, e))
  {
  }

  lemma OwnBackupStepKeepsArtifact(s: State, e: Event)
    requires Enabled(s, e) && !StorageEvent(e) && !e.CreateRecord? && FreshArtifact(s, e)
    requires StorageOrder(s, s.items[e.id]) && ArtifactOk(s, s.items[e.id])
    ensures ArtifactOk(Next(s, e), ItemNext(s, e))
  {
    assert Next(s, e).remote == s.remote;
  }

  lemma StepKeepsArtifact(s: State, e: Event, id: JobId)
    requires UploadsOk(s) && Enabled(s, e) && FreshArtifact(s, e) && id in Next(s, e).items
    ensures ArtifactOk(Next(s, e), Next(s, e).items[id])
  {
    StepTouchesOneItem(s, e, id);
    if id != e.id {
      OtherStepKeepsArtifact(s, e, id);
    } else if id in s.items {
      assert ArtifactOk(s, s.items[id]) && StorageOrder(s, s.items[id]);
      if StorageEvent(e) { OwnStorageStepKeepsArtifact(s, e); } else { OwnBackupStepKeepsArtifact(s, e); }
    }
  }

  /** A step adds no name to what an item holds but the fresh one of a new artifact. */
  lemma StepHolds(s: State, e: Event, id: JobId)
    requires Enabled(s, e) && id in Next(s, e).items
    ensures Holds(Next(s, e).items[id]) <=
              (if id in s.items then Holds(s.items[id]) else {})
              + (if e.ServiceReply? && e.id == id then {e.result.fileName} else {})
  {
    StepTouchesOneItem(s, e, id);
    if id == e.id && id in s.items { OwnStepHolds(s, e); }
  }

  lemma OwnStepHolds(s: State, e: Event)
    requires Enabled(s, e) && !e.CreateRecord?
    ensures Holds(ItemNext(s, e)) <= Holds(s.items[e.id]) + (if e.ServiceReply? then {e.result.fileName} else {})
  {
  }

  lemma StepKeepsNamesApart(s: State, e: Event, i: JobId, j: JobId)
    requires UploadsOk(s) && Enabled(s, e) && FreshArtifact(s, e)
    requires i in Next(s, e).items && j in Next(s, e).items && i != j
    ensures Holds(Next(s, e).items[i]) !! Holds(Next(s, e).items[j])
  {
    StepHolds(s, e, i);
    StepHolds(s, e, j);
    if i in s.items && j in s.items {
      assert Holds(s.items[i]) !! Holds(s.items[j]);
    }
  }

  lemma StepKeepsUploads(s: State, e: Event)
    requires UploadsOk(s) && Enabled(s, e) && FreshArtifact(s, e)
    ensures UploadsOk(Next(s, e))
  {
    var t := Next(s, e);
    StepKeepsNoticeOrder(s, e);
    forall id | id in t.items ensures ArtifactOk(t, t.items[id]) { StepKeepsArtifact(s, e, id); }
    forall i, j | i in t.items && j in t.items && i != j ensures Holds(t.items[i]) !! Holds(t.items[j]) { StepKeepsNamesApart(s, e, i, j); }
  }

  lemma {:induction false} RunsKeepUploads(states: seq<State>, events: seq<Event>, n: nat)
    requires Run(states, events) && n < |states|
    requires forall k {:trigger events[k]} :: 0 <= k < n ==> FreshArtifact(states[k], events[k])
    ensures UploadsOk(states[n])
  {
    if n > 0 {
      RunsKeepUploads(states, events, n - 1);
      StepKeepsUploads(states[n - 1], events[n - 1]);
    }
  }

  /** With artifacts under paths and names of their own, a completed upload is the local file for good. */
  lemma FreshNamesKeepUploads(states: seq<State>, events: seq<Event>, n: nat, id: JobId)
    requires Run(states, events) && n < |states|
    requires forall k {:trigger events[k]} :: 0 <= k < n ==> FreshArtifact(states[k], events[k])
    requires id in states[n].items && states[n].items[id].storage.Some? && states[n].items[id].storage.value.queue.state.Completed?
    ensures var job := states[n].items[id].storage.value;
            && job.fileName in states[n].remote && job.filePath in states[n].local
            && states[n].remote[job.fileName] == states[n].local[job.filePath]
  {
    RunsKeepUploads(states, events, n);
    assert ArtifactOk(states[n], states[n].items[id]) && StorageOrder(states[n], states[n].items[id]);
  }

  // ---------- Metadata ----------

  /** The backup worker does not write SUCCESS between a storage attempt's read and its write. */
  predicate NoOverlap(s: State, e: Event) {
    e.WriteSuccess? && e.id in s.items ==> !s.items[e.id].storageAt.SRead? && !s.items[e.id].storageAt.SUploaded?
  }

  ghost predicate MetadataKept(s: State) {
    forall id {:trigger s.items[id]} :: id in s.items ==>
      var item := s.items[id];
      && item.record.metadata.worker == item.left
      && (item.storageAt.SRead? || item.storageAt.SUploaded? ==> item.storageAt.seen.metadata.worker == item.left)
  }

  lemma StepKeepsMetadata(s: State, e: Event)
    requires MetadataKept(s) && Enabled(s, e) && NoOverlap(s, e)
    ensures MetadataKept(Next(s, e))
  {
    var t := Next(s, e);
    forall id | id in t.items
      ensures t.items[id].record.metadata.worker == t.items[id].left
              && (t.items[id].storageAt.SRead? || t.items[id].storageAt.SUploaded? ==> t.items[id].storageAt.seen.metadata.worker == t.items[id].left)
    {
      if id in s.items { assert s.items[id].record.metadata.worker == s.items[id].left; }
    }
  }

  /** Storage attempts change nothing in the metadata but their own key. */
  lemma {:induction false} StorageKeepsWorkerMetadata(states: seq<State>, events: seq<Event>, n: nat)
    requires Run(states, events) && n < |states|
    requires forall k {:trigger events[k]} :: 0 <= k < n ==> NoOverlap(states[k], events[k])
    ensures MetadataKept(states[n])
  {
    if n > 0 {
      StorageKeepsWorkerMetadata(states, events, n - 1);
      StepKeepsMetadata(states[n - 1], events[n - 1]);
    }
  }

  /** The rule is needed: a SUCCESS write that falls between the read and the write of a storage attempt
      survives that attempt's write exactly if it left the metadata the attempt had read. */
  lemma LateRecordRestoresWhatItRead(s: State, id: JobId)
    requires id in s.items && s.items[id].storage.Some? && s.items[id].storageAt.SUploaded?
    requires Enabled(s, WriteSuccess(id))
    ensures var t := Next(s, WriteSuccess(id));
            && Enabled(t, StorageRecord(id))
            && var item := Next(t, StorageRecord(id)).items[id];
            && item.left == s.items[id].at.result.metadata
            && (item.record.metadata.worker == item.left <==> s.items[id].storageAt.seen.metadata.worker == item.left)
  {
  }

  // ---------- A job that wrote SUCCESS may run again ----------

  predicate AfterSuccess(s: State, id: JobId) {
    id in s.items && (s.items[id].at.BWrote? || s.items[id].at.BQueued?) && IsActive(s.items[id].queue)
  }

  /** The worker can take the job, and does so under a running record. */
  predicate TakenAgain(s: State, id: JobId) {
    && Enabled(s, Pick(id))
    && Enabled(Next(s, Pick(id)), WriteRunning(id))
    && Next(Next(s, Pick(id)), WriteRunning(id)).items[id].record.status.Running?
  }

  lemma PickableIsTaken(s: State, id: JobId)
    requires id in s.items && Pickable(s.items[id].queue) && s.items[id].at.BIdle?
    ensures TakenAgain(s, id)
  {
  }

  /** An exception after the SUCCESS write, with attempts left, puts the job back in the queue: it is picked
      again although its record was successful, and that record has become failed and then running. */
  lemma SuccessMayBeReexecuted(s: State, id: JobId)
    requires AfterSuccess(s, id) && s.items[id].queue.value.attemptsMade + 1 < s.backupAttempts
    ensures Enabled(s, Throw(id)) && var s1 := Next(s, Throw(id));
            Enabled(s1, WriteFailed(id)) && var s2 := Next(s1, WriteFailed(id));
            Enabled(s2, Fail(id, true)) && var s3 := Next(s2, Fail(id, true));
            s3.items[id].record.status.Failed? && TakenAgain(s3, id)
  {
    PickableIsTaken(Next(Next(Next(s, Throw(id)), WriteFailed(id)), Fail(id, true)), id);
  }

  /** A worker that stops there puts it back however many attempts are left. */
  lemma StoppedSuccessIsReexecuted(s: State, id: JobId)
    requires AfterSuccess(s, id)
    ensures Enabled(s, Crash(id)) && TakenAgain(Next(s, Crash(id)), id)
  {
    PickableIsTaken(Next(s, Crash(id)), id);
  }

  /** The attempt ends after its SUCCESS write without completing. */
  predicate CutShort(s: State, e: Event, id: JobId) {
    && (e == Throw(id) || e == Crash(id))
    && id in s.items && (s.items[id].at.BWrote? || s.items[id].at.BQueued?)
  }

  /** A job is active exactly while its handler runs, and one that wrote SUCCESS is finishing that attempt or out of
      the queue's hands. */
  predicate RunsOnce(item: Item) {
    && (IsActive(item.queue) <==> !item.at.BIdle?)
    && (item.intake.Adding? ==> item.at.BIdle? && !item.wrote)
    && (item.wrote ==> item.at.BWrote? || item.at.BQueued? || (item.at.BIdle? && !Pickable(item.queue)))
  }

  lemma OwnStepRunsOnce(s: State, e: Event)
    requires Enabled(s, e) && !e.CreateRecord? && RunsOnce(s.items[e.id]) && !CutShort(s, e, e.id)
    ensures RunsOnce(ItemNext(s, e))
  {
    if StorageEvent(e) { StorageKeepsStatus(s, e); }
  }

  /** Over all runs: a job that wrote SUCCESS is not picked again, unless an attempt of it was cut short after that
      write. This is the first rule of the backup chains, in terms of the pipeline. */
  lemma {:induction false} SuccessRunsOnce(states: seq<State>, events: seq<Event>, n: nat, id: JobId)
    requires Run(states, events) && n < |states|
    requires forall k {:trigger events[k]} :: 0 <= k < n ==> !CutShort(states[k], events[k], id)
    ensures id in states[n].items ==> RunsOnce(states[n].items[id])
    ensures id in states[n].items && states[n].items[id].wrote ==> !Enabled(states[n], Pick(id)) && !Enabled(states[n], Enqueue(id))
  {
    if n > 0 {
      SuccessRunsOnce(states, events, n - 1, id);
      var s, e := states[n - 1], events[n - 1];
      assert states[n] == Next(s, e);
      StepTouchesOneItem(s, e, id);
      if id == e.id && id in s.items { OwnStepRunsOnce(s, e); }
    }
  }
}
