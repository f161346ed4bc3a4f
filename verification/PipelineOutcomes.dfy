/** What a finished job of the pipeline leaves behind: which notification is kept, and what the remote object holds. */
module PipelineOutcomes {
  import opened Wrappers
  import opened JobRecords
  import opened JobPipeline

  // ---------- Which notification is kept ----------

  /** The notification a step offers to the queue for `id`: true for success. */
  function Offer(s: State, e: Event, id: JobId): Option<bool>
    requires Enabled(s, e)
  {
    match e
    case QueueNext(i) => if i == id && !s.items[id].s3 then Some(true) else None
    case Fail(i, notified) => if i == id && notified then Some(false) else None
    case StorageNotify(i) => if i == id then Some(true) else None
    case _ => None
  }

  function Retained(s: State, id: JobId): Option<bool> {
    if Notice(id, true) in s.notices then Some(true)
    else if Notice(id, false) in s.notices then Some(false)
    else None
  }

  lemma StepRetains(s: State, e: Event, id: JobId)
    requires Enabled(s, e)
    ensures Retained(Next(s, e), id) == if Retained(s, id).Some? then Retained(s, id) else Offer(s, e, id)
  {
    var t := Next(s, e);
    forall m: Notice ensures m in t.notices <==>
        m in s.notices || (Offer(s, e, m.id) == Some(m.success) && !Queued(s.notices, m.id)) {
      StepAdds(s, e, m);
    }
    QueuedIsRetained(s, id);
  }

  lemma StepAdds(s: State, e: Event, m: Notice)
    requires Enabled(s, e)
    ensures m in Next(s, e).notices <==> m in s.notices || (Offer(s, e, m.id) == Some(m.success) && !Queued(s.notices, m.id))
  {
  }

  lemma QueuedIsRetained(s: State, id: JobId)
    ensures Queued(s.notices, id) <==> Retained(s, id).Some?
  {
    if Queued(s.notices, id) {
      var n :| 0 <= n < |s.notices| && s.notices[n].id == id;
      assert s.notices[n] in s.notices && (s.notices[n] == Notice(id, true) || s.notices[n] == Notice(id, false));
    }
  }

  /** The first notification of an id wins: once one is kept, whatever is offered later is ignored. */
  lemma {:induction false} FirstNoticeWins(states: seq<State>, events: seq<Event>, m: nat, n: nat, id: JobId)
    requires Run(states, events) && m <= n < |states| && Retained(states[m], id).Some?
    ensures Retained(states[n], id) == Retained(states[m], id)
    decreases n
  {
    if m < n {
      FirstNoticeWins(states, events, m, n - 1, id);
      StepRetains(states[n - 1], events[n - 1], id);
    }
  }

  /** The job is done as far as notifications are concerned: its backup completed, and for S3 its upload. */
  predicate Done(item: Item) {
    if item.s3 then item.storage.Some? && item.storage.value.queue.state.Completed?
    else item.queue.Some? && item.queue.value.state.Completed?
  }

  predicate Announcing(item: Item) {
    Done(item) || (if item.s3 then item.storageAt.SNotified? else item.at.BQueued?)
  }

  lemma AnnouncingWasOffered(s: State, e: Event, id: JobId)
    requires Enabled(s, e) && id in Next(s, e).items && Announcing(Next(s, e).items[id])
    ensures Offer(s, e, id) == Some(true) || (id in s.items && Announcing(s.items[id]))
  {
    StepTouchesOneItem(s, e, id);
  }

  /** The first success notice offered for an item that has come that far. */
  lemma {:induction false} SuccessWasOffered(states: seq<State>, events: seq<Event>, n: nat, id: JobId) returns (k: nat)
    requires Run(states, events) && n < |states| && id in states[n].items && Announcing(states[n].items[id])
    ensures k < n && Offer(states[k], events[k], id) == Some(true)
    ensures forall j :: 0 <= j < k ==> Offer(states[j], events[j], id) != Some(true)
    decreases n
  {
    var s, e := states[n - 1], events[n - 1];
    assert states[n] == Next(s, e);
    AnnouncingWasOffered(s, e, id);
    if id in s.items && Announcing(s.items[id]) {
      k := SuccessWasOffered(states, events, n - 1, id);
    } else {
      k := FirstSuccess(states, events, n - 1, id);
    }
  }

  lemma {:induction false} FirstSuccess(states: seq<State>, events: seq<Event>, m: nat, id: JobId) returns (k: nat)
    requires Run(states, events) && m < |events| && Offer(states[m], events[m], id) == Some(true)
    ensures k <= m && Offer(states[k], events[k], id) == Some(true)
    ensures forall j :: 0 <= j < k ==> Offer(states[j], events[j], id) != Some(true)
    decreases m
  {
    if j :| 0 <= j < m && Offer(states[j], events[j], id) == Some(true) {
      k := FirstSuccess(states, events, j, id);
    } else {
      k := m;
    }
  }

  /** Some failed attempt announced itself among the first k steps. */
  predicate FailureAnnounced(events: seq<Event>, id: JobId, k: nat)
    requires k <= |events|
  {
    k > 0 && (FailureAnnounced(events, id, k - 1) || events[k - 1] == Fail(id, true))
  }

  lemma {:induction false} FailureAnnouncedIs(events: seq<Event>, id: JobId, k: nat)
    requires k <= |events|
    ensures FailureAnnounced(events, id, k) <==> exists m :: 0 <= m < k && events[m] == Fail(id, true)
  {
    if k > 0 { FailureAnnouncedIs(events, id, k - 1); }
  }

  lemma FailuresAreOffered(s: State, e: Event, id: JobId)
    requires Enabled(s, e)
    ensures e == Fail(id, true) <==> Offer(s, e, id) == Some(false)
  {
  }

  /** As long as no success has been offered, a notification is kept exactly if a failure announced itself. */
  lemma {:induction false} BeforeSuccess(states: seq<State>, events: seq<Event>, k: nat, id: JobId)
    requires Run(states, events) && k < |states|
    requires forall j :: 0 <= j < k ==> Offer(states[j], events[j], id) != Some(true)
    ensures Retained(states[k], id) == if FailureAnnounced(events, id, k) then Some(false) else None
  {
    if k > 0 {
      BeforeSuccess(states, events, k - 1, id);
      StepRetains(states[k - 1], events[k - 1], id);
      FailuresAreOffered(states[k - 1], events[k - 1], id);
    }
  }

  /** A finished job is announced as successful if and only if no failed attempt had announced itself before its
      success was first offered, at step `k`; otherwise it stays announced as failed. */
  lemma AnnouncedAsSuccessExactlyWhen(states: seq<State>, events: seq<Event>, n: nat, id: JobId) returns (k: nat)
    requires Run(states, events) && n < |states| && id in states[n].items && Done(states[n].items[id])
    ensures k < n && Offer(states[k], events[k], id) == Some(true)
    ensures forall j :: 0 <= j < k ==> Offer(states[j], events[j], id) != Some(true)
    ensures Retained(states[n], id) == Some(true) <==> forall m :: 0 <= m < k ==> events[m] != Fail(id, true)
    ensures Retained(states[n], id) == Some(false) <==> exists m :: 0 <= m < k && events[m] == Fail(id, true)
  {
    k := SuccessWasOffered(states, events, n, id);
    BeforeSuccess(states, events, k, id);
    StepRetains(states[k], events[k], id);
    FirstNoticeWins(states, events, k + 1, n, id);
    FailureAnnouncedIs(events, id, k);
  }

  // ---------- What the remote object holds ----------

  /** A completed storage job is recorded, under whatever names the artifacts came. */
  lemma CompletedUploadIsRecorded(states: seq<State>, events: seq<Event>, n: nat, id: JobId)
    requires Run(states, events) && n < |states| && id in states[n].items
    requires states[n].items[id].storage.Some? && states[n].items[id].storage.value.queue.state.Completed?
    ensures UploadRecorded(states[n], states[n].items[id])
  {
    SuccessIsNotifiedLast(states, events, n);
    assert StorageOrder(states[n], states[n].items[id]);
  }

  predicate Faithful(s: State, name: Name, path: Path) {
    name in s.remote && path in s.local && s.remote[name] == s.local[path]
  }

  /** The step writes other bytes to the file, or uploads other bytes under the name. */
  predicate Disturbs(s: State, e: Event, name: Name, path: Path)
    requires Enabled(s, e)
  {
    match e
    case ServiceReply(_, result, content) => result.filePath == path && path in s.local && content != s.local[path]
    case StorageUpload(i) =>
      var job := s.items[i].storage.value;
      job.fileName == name && name in s.remote && s.local[job.filePath] != s.remote[name]
    case _ => false
  }

  lemma StepStaysFaithful(s: State, e: Event, name: Name, path: Path)
    requires Enabled(s, e) && Faithful(s, name, path)
    ensures Faithful(Next(s, e), name, path) <==> !Disturbs(s, e, name, path)
  {
  }

  /** An object stays equal to a file if and only if no step disturbs it. */
  lemma {:induction false} StaysFaithfulExactlyWhen(states: seq<State>, events: seq<Event>, u: nat, n: nat, name: Name, path: Path)
    requires Run(states, events) && u <= n < |states| && Faithful(states[u], name, path)
    ensures (forall k :: u <= k <= n ==> Faithful(states[k], name, path))
            <==> (forall k :: u <= k < n ==> !Disturbs(states[k], events[k], name, path))
    decreases n
  {
    if u < n {
      StaysFaithfulExactlyWhen(states, events, u, n - 1, name, path);
      if Faithful(states[n - 1], name, path) {
        StepStaysFaithful(states[n - 1], events[n - 1], name, path);
        assert states[n] == Next(states[n - 1], events[n - 1]);
      }
    }
  }

  /** The item has uploaded at least once. */
  predicate HasUploaded(item: Item) {
    || item.record.storagePath.Some? || item.storageAt.SUploaded? || item.storageAt.SRecorded? || item.storageAt.SNotified?
    || (item.storage.Some? && item.storage.value.queue.state.Completed?)
  }

  predicate SameFile(a: Item, b: Item) {
    a.storage.Some? && b.storage.Some?
    && a.storage.value.fileName == b.storage.value.fileName && a.storage.value.filePath == b.storage.value.filePath
  }

  lemma StepUploads(s: State, e: Event, id: JobId)
    requires Enabled(s, e) && NoticesInOrder(s) && id in Next(s, e).items && HasUploaded(Next(s, e).items[id])
    ensures id in s.items && SameFile(s.items[id], Next(s, e).items[id])
    ensures e == StorageUpload(id) || HasUploaded(s.items[id])
  {
    StepTouchesOneItem(s, e, id);
    if id == e.id && id in s.items {
      assert StorageOrder(s, s.items[id]);
      if StorageEvent(e) { StorageStepUploads(s, e); } else { BackupStepUploads(s, e); }
    }
  }

  lemma StorageStepUploads(s: State, e: Event)
    requires Enabled(s, e) && StorageEvent(e) && StorageOrder(s, s.items[e.id])
    ensures SameFile(s.items[e.id], ItemNext(s, e))
    ensures HasUploaded(ItemNext(s, e)) ==> e.StorageUpload? || HasUploaded(s.items[e.id])
  {
  }

  lemma BackupStepUploads(s: State, e: Event)
    requires Enabled(s, e) && !StorageEvent(e) && !e.CreateRecord? && StorageOrder(s, s.items[e.id])
    ensures HasUploaded(ItemNext(s, e)) ==> HasUploaded(s.items[e.id]) && SameFile(s.items[e.id], ItemNext(s, e))
  {
  }

  /** The last step that uploaded for the item; from then on it holds no other file. */
  lemma {:induction false} UploadedAt(states: seq<State>, events: seq<Event>, n: nat, id: JobId) returns (u: nat)
    requires Run(states, events) && n < |states| && id in states[n].items && HasUploaded(states[n].items[id])
    ensures u < n && events[u] == StorageUpload(id) && id in states[u].items && SameFile(states[u].items[id], states[n].items[id])
    decreases n
  {
    var s, e := states[n - 1], events[n - 1];
    assert states[n] == Next(s, e);
    SuccessIsNotifiedLast(states, events, n - 1);
    StepUploads(s, e, id);
    if e == StorageUpload(id) {
      u := n - 1;
    } else {
      u := UploadedAt(states, events, n - 1, id);
    }
  }

  /** However often storage attempts threw or stopped part-way: once the job is completed, the record names the
      object, some step `u` of the job uploaded its file under that name, and the object stays equal to the file
      from then on if and only if no later step writes other bytes to that path or uploads other bytes under
      that name, as a named backup that runs again does. */
  lemma UploadIsFaithfulExactlyWhen(states: seq<State>, events: seq<Event>, n: nat, id: JobId) returns (u: nat)
    requires Run(states, events) && n < |states| && id in states[n].items
    requires states[n].items[id].storage.Some? && states[n].items[id].storage.value.queue.state.Completed?
    ensures UploadRecorded(states[n], states[n].items[id])
    ensures u < n && events[u] == StorageUpload(id)
    ensures var job := states[n].items[id].storage.value;
            && Faithful(states[u + 1], job.fileName, job.filePath)
            && ((forall k :: u + 1 <= k <= n ==> Faithful(states[k], job.fileName, job.filePath))
                <==> (forall k :: u + 1 <= k < n ==> !Disturbs(states[k], events[k], job.fileName, job.filePath)))
  {
    var job := states[n].items[id].storage.value;
    CompletedUploadIsRecorded(states, events, n, id);
    u := UploadedAt(states, events, n, id);
    assert states[u + 1] == Next(states[u], events[u]);
    StaysFaithfulExactlyWhen(states, events, u + 1, n, job.fileName, job.filePath);
  }

  // ---------- What the record's metadata say ----------

  /** A storage attempt writes back metadata other than the backup worker last left. */
  predicate WritesBackOld(s: State, e: Event, id: JobId) {
    && e == StorageRecord(id) && id in s.items && s.items[id].storageAt.SUploaded?
    && s.items[id].storageAt.seen.metadata.worker != s.items[id].left
  }

  predicate Carries(s: State, id: JobId) {
    id in s.items ==> s.items[id].record.metadata.worker == s.items[id].left
  }

  lemma StepCarries(s: State, e: Event, id: JobId)
    requires Enabled(s, e) && Carries(s, id)
    ensures Carries(Next(s, e), id) <==> !WritesBackOld(s, e, id)
  {
    StepTouchesOneItem(s, e, id);
  }

  /** The first n states carry it; none of the first n steps writes back. */
  predicate AllCarry(states: seq<State>, id: JobId, n: nat)
    requires n <= |states|
  {
    n > 0 ==> AllCarry(states, id, n - 1) && Carries(states[n - 1], id)
  }

  predicate NoneWritesBack(states: seq<State>, events: seq<Event>, id: JobId, n: nat)
    requires n <= |events| && n <= |states|
  {
    n > 0 ==> NoneWritesBack(states, events, id, n - 1) && !WritesBackOld(states[n - 1], events[n - 1], id)
  }

  lemma {:induction false} AllCarryIs(states: seq<State>, id: JobId, n: nat)
    requires n <= |states|
    ensures AllCarry(states, id, n) <==> forall k :: 0 <= k < n ==> Carries(states[k], id)
  {
    if n > 0 { AllCarryIs(states, id, n - 1); }
  }

  lemma {:induction false} NoneWritesBackIs(states: seq<State>, events: seq<Event>, id: JobId, n: nat)
    requires n <= |events| && n <= |states|
    ensures NoneWritesBack(states, events, id, n) <==> forall k :: 0 <= k < n ==> !WritesBackOld(states[k], events[k], id)
  {
    if n > 0 { NoneWritesBackIs(states, events, id, n - 1); }
  }

  lemma {:induction false} CarriesUntilWrittenBack(states: seq<State>, events: seq<Event>, n: nat, id: JobId)
    requires Run(states, events) && n < |states|
    ensures AllCarry(states, id, n + 1) <==> NoneWritesBack(states, events, id, n)
  {
    if n > 0 {
      CarriesUntilWrittenBack(states, events, n - 1, id);
      if Carries(states[n - 1], id) {
        StepCarries(states[n - 1], events[n - 1], id);
        assert states[n] == Next(states[n - 1], events[n - 1]);
      }
    } else {
      assert AllCarry(states, id, 0);
    }
  }

  /** Over all runs: the record carries all along what the backup worker last left in it if and only if no storage
      attempt writes back metadata it had read before a later SUCCESS write changed them. */
  lemma MetadataStaysExactlyWhen(states: seq<State>, events: seq<Event>, n: nat, id: JobId)
    requires Run(states, events) && n < |states|
    ensures (forall k :: 0 <= k < n + 1 ==> Carries(states[k], id))
            <==> (forall k :: 0 <= k < n ==> !WritesBackOld(states[k], events[k], id))
  {
    CarriesUntilWrittenBack(states, events, n, id);
    AllCarryIs(states, id, n + 1);
    NoneWritesBackIs(states, events, id, n);
  }

  /** Neither worker will handle the item again. */
  predicate Settled(item: Item) {
    && !item.intake.Adding? && item.at.BIdle? && !Pickable(item.queue) && !IsActive(item.queue)
    && item.storage.Some? && item.storageAt.SIdle? && !Pickable(StorageQueue(item))
  }

  lemma {:induction false} SettledStays(states: seq<State>, events: seq<Event>, m: nat, n: nat, id: JobId)
    requires Run(states, events) && m <= n < |states| && id in states[m].items && Settled(states[m].items[id])
    ensures id in states[n].items && Settled(states[n].items[id])
    ensures states[n].items[id].record.metadata == states[m].items[id].record.metadata && states[n].items[id].left == states[m].items[id].left
    decreases n
  {
    if m < n {
      SettledStays(states, events, m, n - 1, id);
      assert states[n] == Next(states[n - 1], events[n - 1]);
      StepTouchesOneItem(states[n - 1], events[n - 1], id);
    }
  }
}
