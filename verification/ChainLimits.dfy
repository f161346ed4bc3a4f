/**
 Why no archive may be written over another job's, which the programs do not prevent: a caller-chosen file name may
 already be in use. The exact condition under which doing so is harmless.
 */
module ChainLimits {
  import opened Wrappers
  import opened JobRecords
  import opened BackupChain
  import opened ChainInvariant
  import opened ChainRestore
  import opened ChainFits

  predicate WritesArchive(e: Event) {
    e.Dump? || e.LogicalSuccess? || (e.TakePitrBase? && e.opens)
  }

  /** What was finished in `s` is so in `t`, with the same row and the same image. */
  ghost predicate KeepsFinished(s: State, t: State) {
    forall v {:trigger s.jobs[v]} :: v in s.taken ==>
      v in s.jobs && v in t.jobs && t.jobs[v] == s.jobs[v] && v in t.taken && t.taken[v] == s.taken[v]
  }

  lemma ArchiveWritten(s: State, e: Event)
    requires Inv(s) && Enabled(s, e) && WritesArchive(e)
    ensures var t := Next(s, e);
            && KeepsFinished(s, t) && e.path in t.files
            && t.files == s.files[e.path := t.files[e.path]]
            && forall v :: v in t.taken && v !in s.taken ==> Fits(t, v, t.files[e.path]) && t.jobs[v].filePath == Some(e.path)
  {
    forall v | v in s.taken
      ensures v in s.jobs && Next(s, e).jobs[v] == s.jobs[v] && v in Next(s, e).taken && Next(s, e).taken[v] == s.taken[v]
    {
      FinishedIsPhysical(s, v);
    }
  }

  lemma FitsUnlessOverwritten(s: State, e: Event, v: JobId)
    requires Inv(s) && Enabled(s, e) && WritesArchive(e)
    requires v in Next(s, e).taken && OnDisk(Next(s, e), v) && Next(s, e).jobs[v].filePath != Some(e.path)
    ensures Fits(Next(s, e), v, ArchiveAt(Next(s, e), v))
  {
    var t := Next(s, e);
    ArchiveWritten(s, e);
    OwnArchiveFits(s, v);
    if s.jobs[v].parent.Some? {
      assert LinkOk(s, v);
    }
  }

  /** The archive now at `path` fits every finished backup that is stored there and ends a chain on disk. */
  ghost predicate FitsAllAt(t: State, path: Path) {
    path in t.files &&
    forall chain {:trigger Complete(t, chain)} :: Complete(t, chain) && t.jobs[Last(chain)].filePath == Some(path) ==>
      Fits(t, Last(chain), t.files[path])
  }

  /** The exact condition, for any archive the programs write to any path: every finished backup whose chain is on
      disk still restores as taken if and only if the new archive fits each of them that is stored at that path. */
  lemma OverwriteIsHarmlessExactlyWhen(s: State, e: Event)
    requires Inv(s) && Enabled(s, e) && WritesArchive(e)
    ensures var t := Next(s, e);
            KeepsFinished(s, t) && (AllRestore(t) <==> FitsAllAt(t, e.path))
  {
    var t := Next(s, e);
    ArchiveWritten(s, e);
    RestoresExactlyWhenAllFit(t);
    if FitsAllAt(t, e.path) {
      forall chain | Complete(t, chain) ensures Fits(t, Last(chain), LastArchive(t, chain)) {
        if t.jobs[Last(chain)].filePath != Some(e.path) { FitsUnlessOverwritten(s, e, Last(chain)); }
      }
    }
  }

  /** For a full dump: it is harmless if and only if only roots are stored at the path, as far as their chains are
      on disk, and the cluster is what they took. */
  lemma FullDumpIsHarmlessExactlyWhen(s: State, id: JobId, path: Path, delta: Delta)
    requires Inv(s) && Enabled(s, Dump(id, path, delta)) && s.attempts[id].plan.parent.None?
    ensures var t := Next(s, Dump(id, path, delta));
            AllRestore(t)
            <==> (forall chain {:trigger Complete(t, chain)} :: Complete(t, chain) && t.jobs[Last(chain)].filePath == Some(path) ==>
                    t.jobs[Last(chain)].parent.None? && Cluster(s, s.jobs[id].dbName) == t.taken[Last(chain)])
  {
    OverwriteIsHarmlessExactlyWhen(s, Dump(id, path, delta));
  }

  /** For an incremental: it is harmless if and only if each of them has a parent whose image this delta turns into the
      image it took. */
  lemma IncrementalDumpIsHarmlessExactlyWhen(s: State, id: JobId, path: Path, delta: Delta)
    requires Inv(s) && Enabled(s, Dump(id, path, delta)) && s.attempts[id].plan.parent.Some?
    ensures var t := Next(s, Dump(id, path, delta));
            AllRestore(t)
            <==> (forall chain {:trigger Complete(t, chain)} :: Complete(t, chain) && t.jobs[Last(chain)].filePath == Some(path) ==>
                    match t.jobs[Last(chain)].parent
                    case None => false
                    case Some(p) => p in t.taken && Overlay(t.taken[p], IncrementalImage(delta)) == Some(t.taken[Last(chain)]))
  {
    OverwriteIsHarmlessExactlyWhen(s, Dump(id, path, delta));
  }

  /** A full archive inside a chain, not at its root, makes every restore through it fail. */
  lemma {:induction false} FullDumpOverAnIncrementalBreaksTheChain(
      s: State, id: JobId, path: Path, delta: Delta, target: JobId, n: nat, images: seq<Image>)
    requires Inv(s) && Enabled(s, Dump(id, path, delta)) && s.attempts[id].plan.parent.None?
    requires target in s.taken && 0 < n < |ChainTo(s, target)|
    requires s.jobs[ChainTo(s, target)[n]].filePath == Some(path)
    requires Unpacked(Next(s, Dump(id, path, delta)), ChainTo(s, target), images)
    ensures Combine(images) == None
  {
    assert ArchiveAt(Next(s, Dump(id, path, delta)), ChainTo(s, target)[n]).image.FullImage?;
    FullImageInside(images, n);
  }

  lemma {:induction false} FullImageInside(images: seq<Image>, n: nat)
    requires 0 < n < |images| && images[n].FullImage?
    ensures Combine(images) == None
    decreases |images|
  {
    var front := images[..|images| - 1];
    if n < |front| {
      FullImageInside(front, n);
    }
  }
}
