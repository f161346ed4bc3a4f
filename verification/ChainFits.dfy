/**
 When a store restores: whatever happened to its rows and archives, every chain on disk gives back what its last
 backup took if and only if every archive on such a chain fits the archive before it.
 */
module ChainFits {
  import opened Wrappers
  import opened JobRecords
  import opened BackupChain
  import opened ChainRestore

  /** A chain of finished backups with all their archives on disk. */
  ghost predicate Complete(t: State, chain: seq<JobId>) {
    IsChain(t, chain) && ArtifactsPresent(t, chain) && forall i :: 0 <= i < |chain| ==> chain[i] in t.taken
  }

  /** The chain restores to the image its last backup took. */
  ghost predicate Restores(t: State, chain: seq<JobId>)
    requires Complete(t, chain)
  {
    exists images :: Unpacked(t, chain, images) && Combine(images) == Some(t.taken[Last(chain)])
  }

  ghost predicate AllRestore(t: State) {
    forall chain :: Complete(t, chain) ==> Restores(t, chain)
  }

  /** `a` in the place of `v`'s archive gives back what `v` took: for a root a full image equal to it, otherwise an
      incremental that overlays the parent's image to it. */
  ghost predicate Fits(t: State, v: JobId, a: Artifact) {
    && v in t.taken && v in t.jobs && a.PhysicalTar?
    && match t.jobs[v].parent
       case None => a.image == FullImage(t.taken[v])
       case Some(p) => p in t.taken && Overlay(t.taken[p], a.image) == Some(t.taken[v])
  }

  /** The archive the chain ends with. */
  function LastArchive(t: State, chain: seq<JobId>): Artifact
    requires |chain| > 0 && OnDisk(t, Last(chain))
  {
    ArchiveAt(t, Last(chain))
  }

  lemma FrontIsComplete(t: State, chain: seq<JobId>)
    requires Complete(t, chain) && |chain| > 1
    ensures var front := chain[..|chain| - 1];
            Complete(t, front) && t.jobs[Last(chain)].parent == Some(Last(front))
  {
    var front := chain[..|chain| - 1];
    assert forall i :: 0 <= i < |front| ==> front[i] == chain[i];
  }

  /** If the last archive fits, the chain restores exactly if the part before it does not fail to. */
  lemma LastFitRestores(t: State, chain: seq<JobId>)
    requires Complete(t, chain) && Fits(t, Last(chain), LastArchive(t, chain))
    requires |chain| > 1 ==> Complete(t, chain[..|chain| - 1]) && Restores(t, chain[..|chain| - 1])
    ensures Restores(t, chain)
  {
    var last := LastArchive(t, chain).image;
    if |chain| == 1 {
      assert Unpacked(t, chain, [last]);
    } else {
      FrontIsComplete(t, chain);
      var front := chain[..|chain| - 1];
      var before :| Unpacked(t, front, before) && Combine(before) == Some(t.taken[Last(front)]);
      var images := before + [last];
      assert chain == front + [Last(chain)];
      assert Unpacked(t, chain, images);
      assert images[..|images| - 1] == before;
    }
  }

  lemma RestoringLastFits(t: State, chain: seq<JobId>)
    requires Complete(t, chain) && Restores(t, chain)
    requires |chain| > 1 ==> Complete(t, chain[..|chain| - 1]) && Restores(t, chain[..|chain| - 1])
    ensures Fits(t, Last(chain), LastArchive(t, chain))
  {
    var n := |chain| - 1;
    var images :| Unpacked(t, chain, images) && Combine(images) == Some(t.taken[Last(chain)]);
    assert images[n] == ArchiveAt(t, chain[n]).image;
    if n > 0 {
      FrontIsComplete(t, chain);
      var front := chain[..n];
      var before :| Unpacked(t, front, before) && Combine(before) == Some(t.taken[Last(front)]);
      forall i | 0 <= i < n ensures images[i] == before[i] {
        assert chain[i] == front[i];
      }
      assert images[..n] == before;
    }
  }

  /** Every archive that ends a complete chain fits. */
  ghost predicate AllFit(t: State) {
    forall chain {:trigger Complete(t, chain)} :: Complete(t, chain) ==> Fits(t, Last(chain), LastArchive(t, chain))
  }

  lemma {:induction false} FittingChainRestores(t: State, chain: seq<JobId>)
    requires AllFit(t) && Complete(t, chain)
    ensures Restores(t, chain)
    decreases |chain|
  {
    if |chain| > 1 {
      FrontIsComplete(t, chain);
      FittingChainRestores(t, chain[..|chain| - 1]);
    }
    LastFitRestores(t, chain);
  }

  lemma RestoresExactlyWhenAllFit(t: State)
    ensures AllRestore(t) <==> AllFit(t)
  {
    if AllRestore(t) {
      forall chain | Complete(t, chain) ensures Fits(t, Last(chain), LastArchive(t, chain)) {
        if |chain| > 1 { FrontIsComplete(t, chain); }
        RestoringLastFits(t, chain);
      }
    }
    if AllFit(t) {
      forall chain | Complete(t, chain) ensures Restores(t, chain) {
        FittingChainRestores(t, chain);
      }
    }
  }

  /** In a consistent state they all do. */
  lemma OwnArchiveFits(s: State, v: JobId)
    requires Inv(s) && v in s.taken && OnDisk(s, v)
    ensures Fits(s, v, ArchiveAt(s, v))
  {
    assert LinkOk(s, v);
    match s.jobs[v].parent
    case None =>
    case Some(p) => OverlayIsExact(s.taken[p], ArchiveAt(s, v).image.delta, s.taken[v]);
  }
}
