/**
 Restoring a physical backup: the walk along parent links, the ordered combine, and the theorem that
 a restore gives back the cluster as it was when that backup ran.
 */
module ChainRestore {
  import opened Wrappers
  import opened JobRecords
  import opened BackupChain
  import opened ChainInvariant

  // ---------- The chain ----------

  /** Each member's parent is the member before it, and the first has none. */
  ghost predicate IsChain(s: State, chain: seq<JobId>) {
    && |chain| > 0
    && (forall i :: 0 <= i < |chain| ==> chain[i] in s.jobs)
    && s.jobs[chain[0]].parent == None
    && (forall i :: 0 < i < |chain| ==> s.jobs[chain[i]].parent == Some(chain[i - 1]))
  }

  function Last(chain: seq<JobId>): JobId
    requires |chain| > 0
  {
    chain[|chain| - 1]
  }

  /** The one chain that ends at `id`: no repeated id, levels 0, 1, 2, ... in order, one database
      throughout, rooted at the base its last member names. */
  ghost function ChainTo(s: State, id: JobId): (chain: seq<JobId>)
    requires Inv(s) && id in s.taken
    ensures IsChain(s, chain) && Last(chain) == id
    ensures forall i :: 0 <= i < |chain| ==> chain[i] in s.taken
    ensures |chain| == Level(s.jobs[id]) + 1
    ensures forall i :: 0 <= i < |chain| ==> Level(s.jobs[chain[i]]) == i
    ensures forall i, j :: 0 <= i < j < |chain| ==> chain[i] != chain[j]
    ensures forall i :: 0 <= i < |chain| ==> s.jobs[chain[i]].dbName == s.jobs[id].dbName
    ensures chain[0] == Base(id, s.jobs[id])
    decreases if id in s.jobs then Level(s.jobs[id]) else 0
  {
    assert LinkOk(s, id);
    match s.jobs[id].parent
    case None => [id]
    case Some(p) => assert LinkOk(s, p); ChainTo(s, p) + [id]
  }

  /** Any parent walk that starts at `id` visits exactly `ChainTo`. */
  lemma {:induction false} ChainIsUnique(s: State, chain: seq<JobId>)
    requires Inv(s) && IsChain(s, chain) && Last(chain) in s.taken
    ensures chain == ChainTo(s, Last(chain))
    decreases |chain|
  {
    var id := Last(chain);
    assert LinkOk(s, id);
    if |chain| > 1 {
      var front := chain[..|chain| - 1];
      assert s.jobs[id].parent == Some(Last(front));
      assert IsChain(s, front);
      ChainIsUnique(s, front);
      assert chain == front + [id];
    }
  }

  // ---------- The combine ----------

  ghost predicate OnDisk(s: State, id: JobId) {
    id in s.jobs && s.jobs[id].filePath.Some? && s.jobs[id].filePath.value in s.files
  }

  function ArchiveAt(s: State, id: JobId): Artifact
    requires OnDisk(s, id)
  {
    s.files[s.jobs[id].filePath.value]
  }

  ghost predicate ArtifactsPresent(s: State, chain: seq<JobId>) {
    forall i :: 0 <= i < |chain| ==> OnDisk(s, chain[i])
  }

  ghost predicate AllSucceeded(s: State, chain: seq<JobId>) {
    forall i :: 0 <= i < |chain| ==> chain[i] in s.jobs && s.jobs[chain[i]].status.Succeeded?
  }

  /** `images` are the contents of the chain's archives on disk, in chain order. */
  ghost predicate Unpacked(s: State, chain: seq<JobId>, images: seq<Image>) {
    && ArtifactsPresent(s, chain) && |images| == |chain|
    && forall i :: 0 <= i < |chain| ==> ArchiveAt(s, chain[i]).PhysicalTar? && images[i] == ArchiveAt(s, chain[i]).image
  }

  /** An overlay by a correct incremental turns the parent's image into the child's. */
  lemma OverlayIsExact(before: PageMap, d: Delta, after: PageMap)
    requires Describes(d, before, after)
    ensures Overlay(before, IncrementalImage(d)) == Some(after)
  {
    assert d.live - d.changed.Keys <= before.Keys;
    var overlaid := Overlay(before, IncrementalImage(d)).value;
    assert overlaid.Keys == after.Keys;
    assert forall p :: p in after ==> overlaid[p] == after[p];
    assert overlaid == after;
  }

  /** The ordered fold over the chain's archives rebuilds the image of the last backup. */
  lemma {:induction false} CombineIsExact(s: State, id: JobId, images: seq<Image>)
    requires Inv(s) && id in s.taken
    requires Unpacked(s, ChainTo(s, id), images)
    ensures Combine(images) == Some(s.taken[id])
    decreases |images|
  {
    assert LinkOk(s, id);
    var chain := ChainTo(s, id);
    var n := |images| - 1;
    assert chain[n] == id;
    match s.jobs[id].parent
    case None =>
    case Some(p) =>
      assert LinkOk(s, p);
      var front := ChainTo(s, p);
      assert chain == front + [id];
      assert forall i :: 0 <= i < |front| ==> chain[i] == front[i];
      CombineIsExact(s, p, images[..n]);
      OverlayIsExact(s.taken[p], images[n].delta, s.taken[id]);
  }

  // ---------- The restore ----------

  datatype RestoreError =
    | RecordInvalid(id: JobId)
    | ArtifactMissing(id: JobId)
    | NotAnArchive(id: JobId)
    | CombineFailed

  /** The records a walk from `target` can meet: its chain, or the row alone if it is not a finished physical backup. */
  ghost function Reach(s: State, target: JobId): (full: seq<JobId>)
    requires Inv(s)
    ensures |full| > 0 && Last(full) == target
  {
    if target in s.taken then ChainTo(s, target) else [target]
  }

  /** `walk` lists, root first, the records that following parent links from `target` can meet. */
  ghost predicate IsWalk(s: State, target: JobId, walk: seq<JobId>) {
    && |walk| > 0 && Last(walk) == target
    && forall n {:trigger Leads(s, walk, n)} :: 0 <= n < |walk| ==> Leads(s, walk, n)
  }

  predicate Leads(s: State, walk: seq<JobId>, n: int)
    requires 0 <= n < |walk|
  {
    walk[n] in s.jobs ==> s.jobs[walk[n]].parent == if n == 0 then None else Some(walk[n - 1])
  }

  lemma ReachIsWalk(s: State, target: JobId)
    requires Inv(s)
    ensures IsWalk(s, target, Reach(s, target))
  {
    if target !in s.taken && target in s.jobs { assert OtherOk(s, target); }
    var walk := Reach(s, target);
    forall n | 0 <= n < |walk| ensures Leads(s, walk, n) {}
  }

  /** The parent walk: root first, stopping at the first record that is absent or not successful. */
  method WalkToRoot(s: State, target: JobId, ghost walk: seq<JobId>) returns (r: Result<seq<JobId>, RestoreError>)
    requires IsWalk(s, target, walk)
    ensures r.Success? <==> AllSucceeded(s, walk)
    ensures r.Success? ==> r.value == walk
    ensures r.Failure? ==> r.error.RecordInvalid? && r.error.id in walk
                           && (r.error.id in s.jobs ==> !s.jobs[r.error.id].status.Succeeded?)
    ensures target !in s.jobs || !s.jobs[target].status.Succeeded? ==> r == Failure(RecordInvalid(target))
  {
    ghost var n := |walk|;
    var chain: seq<JobId> := [];
    var current: Option<JobId> := Some(target);
    while current.Some?
      invariant 0 <= n <= |walk| && chain == walk[n..]
      invariant current == if n == 0 then None else Some(walk[n - 1])
      invariant AllSucceeded(s, chain)
      decreases n
    {
      var id := current.value;
      if id !in s.jobs || !s.jobs[id].status.Succeeded? {
        return Failure(RecordInvalid(id));
      }
      n := n - 1;
      assert Leads(s, walk, n);
      chain := [id] + chain;
      current := s.jobs[id].parent;
    }
    r := Success(chain);
  }

  /** Unpack every archive into its own directory, root first. */
  method Unpack(s: State, chain: seq<JobId>) returns (r: Result<seq<Image>, RestoreError>)
    requires AllSucceeded(s, chain)
    ensures r.Success? ==> Unpacked(s, chain, r.value)
    ensures !ArtifactsPresent(s, chain) ==> r.Failure?
    ensures r.Failure? ==> !r.error.RecordInvalid? && !r.error.CombineFailed? && r.error.id in chain
    ensures r.Failure? && r.error.ArtifactMissing? ==> !OnDisk(s, r.error.id)
    ensures r.Failure? && r.error.NotAnArchive? ==> OnDisk(s, r.error.id) && ArchiveAt(s, r.error.id).LogicalDump?
  {
    var directories: seq<Image> := [];
    for i := 0 to |chain|
      invariant Unpacked(s, chain[..i], directories)
    {
      var item := s.jobs[chain[i]];
      if item.filePath.None? || item.filePath.value !in s.files {
        return Failure(ArtifactMissing(chain[i]));
      }
      var artifact := s.files[item.filePath.value];
      if artifact.LogicalDump? {
        return Failure(NotAnArchive(chain[i]));
      }
      directories := directories + [artifact.image];
    }
    assert chain[..|chain|] == chain;
    r := Success(directories);
  }

  /** A restore succeeds exactly when every record of the chain is successful and every archive is on
      disk, and then it yields the image the backup took. */
  method RestoreBackupChain(s: State, target: JobId) returns (r: Result<PageMap, RestoreError>)
    requires Inv(s)
    ensures r.Success? <==>
              target in s.taken && AllSucceeded(s, ChainTo(s, target)) && ArtifactsPresent(s, ChainTo(s, target))
    ensures r.Success? ==> r.value == s.taken[target]
    ensures r.Failure? && r.error.RecordInvalid? <==> !AllSucceeded(s, Reach(s, target))
    ensures r.Failure? && r.error.NotAnArchive? ==> target !in s.taken
    ensures r != Failure(CombineFailed)
  {
    ReachIsWalk(s, target);
    var chain :- WalkToRoot(s, target, Reach(s, target));
    ArchivesInReach(s, target);
    var directories :- Unpack(s, chain);
    CombineIsExact(s, target, directories);
    match Combine(directories)
    case None => r := Failure(CombineFailed);
    case Some(pages) => r := Success(pages);
  }

  /** Archives under the chain's paths are the physical ones; a row that is not a finished physical backup has none. */
  lemma ArchivesInReach(s: State, target: JobId)
    requires Inv(s) && AllSucceeded(s, Reach(s, target))
    ensures target in s.taken ==>
              forall id :: id in ChainTo(s, target) && OnDisk(s, id) ==> ArchiveAt(s, id).PhysicalTar?
    ensures target !in s.taken && OnDisk(s, target) ==> ArchiveAt(s, target).LogicalDump?
  {
    if target in s.taken {
      forall id | id in ChainTo(s, target) && OnDisk(s, id) ensures ArchiveAt(s, id).PhysicalTar? {
        assert LinkOk(s, id);
      }
    } else {
      assert OtherOk(s, target);
    }
  }

  // ---------- Over whole runs ----------

  /** Nobody rewrites history: what a finished backup holds never changes again. */
  lemma StepKeepsTaken(s: State, e: Event, id: JobId)
    requires Inv(s) && Enabled(s, e) && Disciplined(s, e) && id in s.taken
    ensures id in Next(s, e).taken && Next(s, e).taken[id] == s.taken[id]
  {
    if e.Commit? { AttemptIsPhysical(s, e.id); }
    if e.TakePitrBase? { FinishedIsPhysical(s, id); }
  }

  lemma {:induction false} TakenIsForever(states: seq<State>, events: seq<Event>, i: nat, j: nat, id: JobId)
    requires Run(states, events) && i <= j < |states| && id in states[i].taken
    ensures id in states[j].taken && states[j].taken[id] == states[i].taken[id]
    decreases j
  {
    if i < j {
      TakenIsForever(states, events, i, j - 1, id);
      RunsKeepInv(states, events, j - 1);
      StepKeepsTaken(states[j - 1], events[j - 1], id);
    }
  }

  /** Only a new dump gives an attempt a new image. */
  lemma StepHoldsTheDump(s: State, e: Event, id: JobId)
    requires Enabled(s, e) && !(e.Dump? && e.id == id)
    ensures id in Next(s, e).attempts && Next(s, e).attempts[id].Dumped? ==>
              id in s.attempts && s.attempts[id] == Next(s, e).attempts[id]
  {
  }

  /** Between its dump and its commit, an attempt holds the cluster image of the moment of the dump. */
  lemma {:induction false} DumpIsHeld(states: seq<State>, events: seq<Event>, i: nat, j: nat, id: JobId)
    requires Run(states, events) && i < j < |states|
    requires events[i].Dump? && events[i].id == id
    requires forall k :: i < k < j ==> !(events[k].Dump? && events[k].id == id)
    ensures id in states[i].jobs
    ensures id in states[j].attempts && states[j].attempts[id].Dumped? ==>
              states[j].attempts[id].image == Cluster(states[i], states[i].jobs[id].dbName)
    decreases j
  {
    if j > i + 1 {
      DumpIsHeld(states, events, i, j - 1, id);
      StepHoldsTheDump(states[j - 1], events[j - 1], id);
    }
  }

  /** A backup dumps at step `i`, reaches SUCCESS at step `j`, and is looked at in any later state `k`, however
      many writes, backups, failures, cancellations and file removals lie between: what it holds is the
      cluster as it was at step `i`. */
  lemma CommittedImage(states: seq<State>, events: seq<Event>, i: nat, j: nat, k: nat, id: JobId)
    requires Run(states, events) && i < j < k < |states|
    requires events[i].Dump? && events[i].id == id && events[j] == Commit(id)
    requires forall m :: i < m < j ==> !(events[m].Dump? && events[m].id == id)
    ensures Inv(states[k]) && id in states[k].taken && id in states[i].jobs
    ensures states[k].taken[id] == Cluster(states[i], states[i].jobs[id].dbName)
  {
    DumpIsHeld(states, events, i, j, id);
    TakenIsForever(states, events, j + 1, k, id);
    RunsKeepInv(states, events, k);
  }

  /** The theorem of this module, in the terms of the restore itself: whatever parent walk leads to the
      backup, the ordered combine of the archives found on disk is the cluster at the moment of the dump. */
  lemma RestoreGivesBackTheDumpedCluster(
      states: seq<State>, events: seq<Event>, i: nat, j: nat, k: nat, id: JobId, chain: seq<JobId>, images: seq<Image>)
    requires Run(states, events) && i < j < k < |states|
    requires events[i].Dump? && events[i].id == id && events[j] == Commit(id)
    requires forall m :: i < m < j ==> !(events[m].Dump? && events[m].id == id)
    requires IsChain(states[k], chain) && Last(chain) == id && Unpacked(states[k], chain, images)
    ensures id in states[i].jobs && Combine(images) == Some(Cluster(states[i], states[i].jobs[id].dbName))
  {
    CommittedImage(states, events, i, j, k, id);
    ChainIsUnique(states[k], chain);
    CombineIsExact(states[k], id, images);
  }

  /** The same for a PITR base, which dumps and registers itself in one go and records neither level nor base. */
  lemma PitrBaseGivesBackTheDumpedCluster(
      states: seq<State>, events: seq<Event>, i: nat, k: nat, chain: seq<JobId>, images: seq<Image>)
    requires Run(states, events) && i < k < |states| && events[i].TakePitrBase?
    requires IsChain(states[k], chain) && Last(chain) == events[i].id && Unpacked(states[k], chain, images)
    ensures Combine(images) == Some(Cluster(states[i], events[i].dbName))
  {
    TakenIsForever(states, events, i + 1, k, events[i].id);
    RunsKeepInv(states, events, k);
    ChainIsUnique(states[k], chain);
    CombineIsExact(states[k], events[i].id, images);
  }

  /** The row of a base stays as it was registered, except for its status. */
  ghost predicate RegisteredBase(s: State, e: Event)
    requires e.TakePitrBase?
  {
    && e.id in s.taken && e.id in s.jobs
    && s.jobs[e.id] == PitrRow(e.dbName, e.path, e.at).(status := s.jobs[e.id].status)
  }

  /** The step takes the base away: its file is removed, or its row no longer says success. */
  predicate Discards(e: Event, base: Event)
    requires base.TakePitrBase?
  {
    e == RemoveFile(base.path) || e == MarkFailed(base.id) || e == Cancel(base.id)
  }

  ghost predicate Restorable(s: State, id: JobId)
    requires Inv(s)
  {
    id in s.taken && AllSucceeded(s, ChainTo(s, id)) && ArtifactsPresent(s, ChainTo(s, id))
  }

  lemma BaseIsItsOwnChain(s: State, e: Event)
    requires Inv(s) && e.TakePitrBase? && RegisteredBase(s, e)
    ensures Restorable(s, e.id) <==> s.jobs[e.id].status.Succeeded? && e.path in s.files
  {
    assert LinkOk(s, e.id);
    assert ChainTo(s, e.id) == [e.id];
    assert [e.id][0] == e.id;
  }

  lemma StepOnABase(s: State, e: Event, base: Event)
    requires Inv(s) && Enabled(s, e) && Disciplined(s, e) && base.TakePitrBase? && RegisteredBase(s, base)
    ensures RegisteredBase(Next(s, e), base)
    ensures base.path in Next(s, e).files <==> base.path in s.files && e != RemoveFile(base.path)
    ensures Next(s, e).jobs[base.id].status.Succeeded?
            <==> s.jobs[base.id].status.Succeeded? && e != MarkFailed(base.id) && e != Cancel(base.id)
  {
    assert LinkOk(s, base.id) && PathOf(s, base.id) == Some(base.path);
    if e.Commit? { AttemptIsPhysical(s, e.id); }
  }

  lemma NewBase(s: State, e: Event)
    requires Enabled(s, e) && Disciplined(s, e) && e.TakePitrBase?
    ensures RegisteredBase(Next(s, e), e) && Next(s, e).jobs[e.id].status.Succeeded?
    ensures e.path in Next(s, e).files <==> e.opens
  {
  }

  ghost predicate Kept(s: State, base: Event)
    requires base.TakePitrBase? && RegisteredBase(s, base)
  {
    s.jobs[base.id].status.Succeeded? && base.path in s.files
  }

  lemma {:induction false} BaseIsKeptExactlyWhen(states: seq<State>, events: seq<Event>, i: nat, k: nat)
    requires Run(states, events) && i < k < |states| && events[i].TakePitrBase?
    ensures RegisteredBase(states[k], events[i])
    ensures Kept(states[k], events[i])
            <==> events[i].opens && forall j {:trigger events[j]} :: i < j < k ==> !Discards(events[j], events[i])
    decreases k
  {
    assert Steps(states[k - 1], events[k - 1], states[k]);
    if k == i + 1 {
      NewBase(states[i], events[i]);
    } else {
      BaseIsKeptExactlyWhen(states, events, i, k - 1);
      RunsKeepInv(states, events, k - 1);
      StepOnABase(states[k - 1], events[k - 1], events[i]);
    }
  }

  /** So a base is restorable, at any later time, if and only if the path in its row opens where the restore runs and
      nothing has discarded it. */
  lemma PitrBaseIsRestorableExactlyWhen(states: seq<State>, events: seq<Event>, i: nat, k: nat)
    requires Run(states, events) && i < k < |states| && events[i].TakePitrBase?
    ensures Inv(states[k])
    ensures Restorable(states[k], events[i].id)
            <==> events[i].opens && forall j {:trigger events[j]} :: i < j < k ==> !Discards(events[j], events[i])
  {
    RunsKeepInv(states, events, k);
    BaseIsKeptExactlyWhen(states, events, i, k);
    BaseIsItsOwnChain(states[k], events[i]);
  }
}
