/**
 Why a job that reached SUCCESS may not be executed again, which a queue retry does. What one such execution does to
 the parent walks, and to the restores of everything that descends from it, exactly.
 */
module ChainReexecution {
  import opened Wrappers
  import opened JobRecords
  import opened BackupChain
  import opened ChainInvariant
  import opened ChainRestore
  import opened ChainFits

  // ---------- One more execution ----------

  /** A finished backup runs once more from RUNNING to SUCCESS. */
  ghost predicate Reexecution(s: State, a: JobId, requested: Option<JobId>, listing: seq<JobId>, path: Path, delta: Delta, t: State) {
    && a in s.taken && Enabled(s, Start(a))
    && var s1 := Next(s, Start(a));
    && Enabled(s1, Begin(a, requested, listing))
    && var s2 := Next(s1, Begin(a, requested, listing));
    && Enabled(s2, Dump(a, path, delta))
    && var s3 := Next(s2, Dump(a, path, delta));
    && Enabled(s3, Commit(a)) && t == Next(s3, Commit(a))
  }

  /** The plan it makes. */
  function NewPlan(s: State, a: JobId, requested: Option<JobId>, listing: seq<JobId>): Plan
    requires a in s.jobs && PlanBackup(WithStatus(s, a, Running), a, requested, listing).Success?
  {
    PlanBackup(WithStatus(s, a, Running), a, requested, listing).value
  }

  /** Its effect: a new row, archive and image for `a`, and nothing else. */
  ghost predicate Rewritten(s: State, a: JobId, plan: Plan, path: Path, delta: Delta, t: State) {
    && a in s.taken && a in s.jobs
    && var image := Cluster(s, s.jobs[a].dbName);
    && t.jobs == s.jobs[a := CommittedRow(s.jobs[a], plan, path, image)]
    && t.files == s.files[path := Archive(plan, image, delta)]
    && t.taken == s.taken[a := image]
    && (plan.parent.Some? ==>
          && plan.parent.value in s.taken && plan.parent.value != a
          && Describes(delta, s.taken[plan.parent.value], image))
  }

  /** From the plan to SUCCESS, as a change of rows, archives and images. */
  lemma DumpAndCommit(s: State, a: JobId, plan: Plan, path: Path, delta: Delta)
    requires IsPhysicalJob(s, a) && a in s.attempts && s.attempts[a] == Planned(plan) && Enabled(s, Dump(a, path, delta))
    ensures var s3 := Next(s, Dump(a, path, delta));
            && Enabled(s3, Commit(a))
            && var t := Next(s3, Commit(a));
               var image := Cluster(s, s.jobs[a].dbName);
               && t.jobs == s.jobs[a := CommittedRow(s.jobs[a], plan, path, image)]
               && t.files == s.files[path := Archive(plan, image, delta)]
               && t.taken == s.taken[a := image]
  {
  }

  /** The new parent is another finished backup, and the new delta is taken against its image. */
  lemma PlanIsSound(s: State, a: JobId, requested: Option<JobId>, listing: seq<JobId>)
    requires Inv(s) && a in s.taken && a in s.jobs && Enabled(WithStatus(s, a, Running), Begin(a, requested, listing))
    ensures var plan := NewPlan(s, a, requested, listing);
            plan.parent.Some? ==>
              plan.parent.value in s.taken && plan.parent.value != a && plan.against == s.taken[plan.parent.value]
  {
    KeepStatus(s, a, Running);
    BeginChoosesAFinishedBackup(WithStatus(s, a, Running), a, requested, listing);
    ParentIsAnother(WithStatus(s, a, Running), a, requested, listing);
  }

  lemma ReexecutionRewrites(s: State, a: JobId, requested: Option<JobId>, listing: seq<JobId>, path: Path, delta: Delta, t: State)
    requires Inv(s) && Reexecution(s, a, requested, listing, path, delta, t)
    ensures a in s.jobs && PlanBackup(WithStatus(s, a, Running), a, requested, listing).Success?
    ensures Rewritten(s, a, NewPlan(s, a, requested, listing), path, delta, t)
  {
    var s1 := WithStatus(s, a, Running);
    var plan := NewPlan(s, a, requested, listing);
    PlanIsSound(s, a, requested, listing);
    DumpAndCommit(AfterBegin(s1, a, plan), a, plan, path, delta);
    assert CommittedRow(s1.jobs[a], plan, path, Cluster(s, s.jobs[a].dbName)) == CommittedRow(s.jobs[a], plan, path, Cluster(s, s.jobs[a].dbName));
    var row := CommittedRow(s.jobs[a], plan, path, Cluster(s, s.jobs[a].dbName));
    assert s.jobs[a := s1.jobs[a]][a := row] == s.jobs[a := row];
  }

  lemma ParentIsAnother(s: State, a: JobId, requested: Option<JobId>, listing: seq<JobId>)
    requires Enabled(s, Begin(a, requested, listing)) && !s.jobs[a].status.Succeeded?
    ensures PlanBackup(s, a, requested, listing).value.parent != Some(a)
  {
  }

  // ---------- Parent walks ----------

  /** `a` has come to descend from itself. */
  ghost predicate Cycle(s: State, a: JobId, plan: Plan)
    requires Inv(s)
  {
    plan.parent.Some? && plan.parent.value in s.taken && a in ChainTo(s, plan.parent.value)
  }

  lemma ParentChain(s: State, x: JobId)
    requires Inv(s) && x in s.taken
    ensures x in s.jobs
    ensures s.jobs[x].parent.None? ==> ChainTo(s, x) == [x]
    ensures s.jobs[x].parent.Some? ==>
              s.jobs[x].parent.value in s.taken && ChainTo(s, x) == ChainTo(s, s.jobs[x].parent.value) + [x]
  {
    assert LinkOk(s, x);
  }

  lemma OneMore(t: State, front: seq<JobId>, x: JobId) returns (chain: seq<JobId>)
    requires IsChain(t, front) && x in t.jobs && t.jobs[x].parent == Some(Last(front))
    ensures chain == front + [x] && IsChain(t, chain) && Last(chain) == x
  {
    chain := front + [x];
  }

  /** A chain that leads to `x` after the execution, if `x` does not hang on a cycle. */
  lemma {:induction false} SurvivingChain(s: State, a: JobId, plan: Plan, path: Path, delta: Delta, t: State, x: JobId)
      returns (chain: seq<JobId>)
    requires Inv(s) && Rewritten(s, a, plan, path, delta, t) && x in s.taken
    requires a in ChainTo(s, x) ==> !Cycle(s, a, plan)
    ensures IsChain(t, chain) && Last(chain) == x
    decreases a in ChainTo(s, x), |ChainTo(s, x)|
  {
    ParentChain(s, x);
    if x == a {
      assert a in ChainTo(s, a) by { assert Last(ChainTo(s, a)) == a; }
      if plan.parent.None? {
        chain := [a];
      } else {
        var front := SurvivingChain(s, a, plan, path, delta, t, plan.parent.value);
        chain := OneMore(t, front, a);
      }
    } else if s.jobs[x].parent.None? {
      chain := [x];
    } else {
      var front := SurvivingChain(s, a, plan, path, delta, t, s.jobs[x].parent.value);
      chain := OneMore(t, front, x);
    }
  }

  lemma {:induction false} NoChainOnACycle(s: State, a: JobId, plan: Plan, path: Path, delta: Delta, t: State, chain: seq<JobId>)
    requires Inv(s) && Rewritten(s, a, plan, path, delta, t) && Cycle(s, a, plan)
    requires IsChain(t, chain) && Last(chain) in s.taken
    ensures a !in ChainTo(s, Last(chain))
    decreases |chain|
  {
    ParentChain(s, Last(chain));
    if |chain| > 1 {
      var front := chain[..|chain| - 1];
      assert t.jobs[Last(chain)].parent == Some(Last(front));
      assert IsChain(t, front);
      NoChainOnACycle(s, a, plan, path, delta, t, front);
    }
  }

  /** After a finished `a` has been executed again, a parent walk from a finished `x` ends if and only if `x` does not
      descend from `a`, or the new plan has no parent or one that does not descend from `a` itself. */
  lemma WalkEndsExactlyWhen(
      s: State, a: JobId, requested: Option<JobId>, listing: seq<JobId>, path: Path, delta: Delta, t: State, x: JobId)
    requires Inv(s) && Reexecution(s, a, requested, listing, path, delta, t) && x in s.taken
    ensures a in s.jobs && PlanBackup(WithStatus(s, a, Running), a, requested, listing).Success?
    ensures var parent := NewPlan(s, a, requested, listing).parent;
            && (parent.Some? ==> parent.value in s.taken)
            && ((exists chain :: IsChain(t, chain) && Last(chain) == x)
                <==> a !in ChainTo(s, x) || parent.None? || a !in ChainTo(s, parent.value))
  {
    ReexecutionRewrites(s, a, requested, listing, path, delta, t);
    var plan := NewPlan(s, a, requested, listing);
    if a in ChainTo(s, x) && Cycle(s, a, plan) {
      forall chain | IsChain(t, chain) && Last(chain) == x ensures false {
        NoChainOnACycle(s, a, plan, path, delta, t, chain);
      }
    } else {
      var chain := SurvivingChain(s, a, plan, path, delta, t, x);
    }
  }

  // ---------- Restores ----------

  /** What does not hang on the new row or the new archive still fits. */
  lemma OthersStillFit(s: State, a: JobId, plan: Plan, path: Path, delta: Delta, t: State, v: JobId)
    requires Inv(s) && Rewritten(s, a, plan, path, delta, t) && v in t.taken && OnDisk(t, v)
    requires v == a || (s.jobs[v].parent != Some(a) && s.jobs[v].filePath != Some(path))
    ensures Fits(t, v, ArchiveAt(t, v))
  {
    if v == a {
      if plan.parent.Some? {
        OverlayIsExact(s.taken[plan.parent.value], delta, t.taken[a]);
      }
    } else {
      OwnArchiveFits(s, v);
    }
  }

  /** A chain on disk that ends with a child of `a`, or with a backup stored where `a` now is. */
  ghost predicate Affected(s: State, a: JobId, path: Path, t: State, chain: seq<JobId>) {
    && Complete(t, chain) && Last(chain) != a && Last(chain) in s.jobs
    && (s.jobs[Last(chain)].parent == Some(a) || s.jobs[Last(chain)].filePath == Some(path))
  }

  /** After a finished `a` has been executed again, everything whose chain is on disk restores to what it took (and `a` to
      what it has taken now) if and only if the archives of `a`'s children, and the one now at the path for whatever
      else is stored there, fit: a child's must overlay the new image of `a` to the child's own. */
  lemma ReexecutionIsHarmlessExactlyWhen(
      s: State, a: JobId, requested: Option<JobId>, listing: seq<JobId>, path: Path, delta: Delta, t: State)
    requires Inv(s) && Reexecution(s, a, requested, listing, path, delta, t)
    ensures a in s.jobs && t.taken == s.taken[a := Cluster(s, s.jobs[a].dbName)]
    ensures AllRestore(t) <==>
              forall chain {:trigger Affected(s, a, path, t, chain)} :: Affected(s, a, path, t, chain) ==>
                Fits(t, Last(chain), LastArchive(t, chain))
  {
    ReexecutionRewrites(s, a, requested, listing, path, delta, t);
    var plan := NewPlan(s, a, requested, listing);
    RestoresExactlyWhenAllFit(t);
    if forall chain {:trigger Affected(s, a, path, t, chain)} :: Affected(s, a, path, t, chain) ==> Fits(t, Last(chain), LastArchive(t, chain)) {
      forall chain | Complete(t, chain) ensures Fits(t, Last(chain), LastArchive(t, chain)) {
        var v := Last(chain);
        if v in s.taken && v != a { assert LinkOk(s, v); }
        if !Affected(s, a, path, t, chain) { OthersStillFit(s, a, plan, path, delta, t, v); }
      }
    }
  }

  /** If no other job's archive is written over, that is: the unchanged archive of every child of `a` on disk turns the
      cluster of the new execution into the image the child took. */
  lemma ChildrenDecide(
      s: State, a: JobId, requested: Option<JobId>, listing: seq<JobId>, path: Path, delta: Delta, t: State)
    requires Inv(s) && Reexecution(s, a, requested, listing, path, delta, t)
    requires forall v :: v in s.taken && v in s.jobs && v != a ==> s.jobs[v].filePath != Some(path)
    ensures a in s.jobs
    ensures AllRestore(t) <==>
              forall chain {:trigger Complete(t, chain)} ::
                Complete(t, chain) && Last(chain) in s.jobs && s.jobs[Last(chain)].parent == Some(a) && Last(chain) != a ==>
                  && OnDisk(s, Last(chain)) && Last(chain) in s.taken && ArchiveAt(s, Last(chain)).PhysicalTar?
                  && Overlay(Cluster(s, s.jobs[a].dbName), ArchiveAt(s, Last(chain)).image) == Some(s.taken[Last(chain)])
  {
    ReexecutionRewrites(s, a, requested, listing, path, delta, t);
    ReexecutionIsHarmlessExactlyWhen(s, a, requested, listing, path, delta, t);
    forall chain | Complete(t, chain) && Last(chain) in s.jobs && s.jobs[Last(chain)].parent == Some(a) && Last(chain) != a
      ensures Affected(s, a, path, t, chain)
      ensures Last(chain) in s.taken && OnDisk(s, Last(chain)) && LastArchive(t, chain) == ArchiveAt(s, Last(chain))
      ensures ArchiveAt(s, Last(chain)).PhysicalTar?
    {
      OwnArchiveFits(s, Last(chain));
    }
  }

  // ---------- The case a retry meets ----------

  /** A finished incremental `a` with a finished child `b` is executed again, and `b` is the newest
      successful backup: `a` adopts its own child, and no parent walk from `a` ever ends. */
  lemma ReexecutedBackupAdoptsItsChild(s: State, a: JobId, b: JobId, listing: seq<JobId>, path: Path, delta: Delta)
    requires Inv(s) && a in s.taken && b in s.taken && a in s.jobs && b in s.jobs
    requires s.jobs[a].backupType.IncrementalBackup? && s.jobs[b].parent == Some(a)
    requires s.jobs[b].status.Succeeded? && b in s.manifests
    requires IsListing(WithStatus(s, a, Running).jobs, s.jobs[a].dbName, Descending, listing)
    requires |listing| > 0 && listing[0] == b
    requires Describes(delta, s.taken[b], Cluster(s, s.jobs[a].dbName))
    ensures var s1 := WithStatus(s, a, Running);
            && Enabled(s, Start(a)) && Enabled(s1, Begin(a, None, listing))
            && var s2 := Next(s1, Begin(a, None, listing));
            && Enabled(s2, Dump(a, path, delta))
            && var s3 := Next(s2, Dump(a, path, delta));
            && Enabled(s3, Commit(a))
            && var s4 := Next(s3, Commit(a));
            && a in s4.jobs && b in s4.jobs && s4.jobs[a].status.Succeeded? && s4.jobs[b].status.Succeeded?
            && s4.jobs[a].parent == Some(b) && s4.jobs[b].parent == Some(a)
            && forall chain :: IsChain(s4, chain) ==> Last(chain) != a
  {
    assert LinkOk(s, a) && LinkOk(s, b);
    var s1 := WithStatus(s, a, Running);
    assert FirstPhysical(s1, listing) == Some(b);
    var s2 := Next(s1, Begin(a, None, listing));
    assert s2.attempts[a].plan.against == s.taken[b];
    var s3 := Next(s2, Dump(a, path, delta));
    var s4 := Next(s3, Commit(a));
    forall chain | IsChain(s4, chain) ensures Last(chain) != a {
      NoChainThroughACycle(s4, a, b, chain);
    }
  }

  lemma {:induction false} NoChainThroughACycle(s: State, a: JobId, b: JobId, chain: seq<JobId>)
    requires a in s.jobs && b in s.jobs && s.jobs[a].parent == Some(b) && s.jobs[b].parent == Some(a)
    requires IsChain(s, chain)
    ensures Last(chain) != a && Last(chain) != b
    decreases |chain|
  {
    if |chain| > 1 {
      var front := chain[..|chain| - 1];
      assert s.jobs[Last(chain)].parent == Some(Last(front));
      assert IsChain(s, front);
      NoChainThroughACycle(s, a, b, front);
    }
  }

  // A concrete store in which that happens: an empty cluster, a full backup and two incrementals.

  const EMPTY: PageMap := map[]
  const NOTHING: Delta := Delta({}, map[])

  function Row(t: BackupType, at: Instant, parent: Option<JobId>, level: nat, path: Path): Job {
    Job(Postgresql, "db", t, true, Succeeded, at, parent, Some("f"), Some(level), Some(path), Some(EMPTY))
  }

  function ThreeBackups(): State {
    State(map[],
          map["f" := Row(FullBackup, 1, None, 0, "f.tar.gz"),
              "a" := Row(IncrementalBackup, 2, Some("f"), 1, "a.tar.gz"),
              "b" := Row(IncrementalBackup, 3, Some("a"), 2, "b.tar.gz")],
          map["f.tar.gz" := PhysicalTar(FullImage(EMPTY), EMPTY),
              "a.tar.gz" := PhysicalTar(IncrementalImage(NOTHING), EMPTY),
              "b.tar.gz" := PhysicalTar(IncrementalImage(NOTHING), EMPTY)],
          map["f" := EMPTY, "a" := EMPTY, "b" := EMPTY],
          map[],
          map["f" := EMPTY, "a" := EMPTY, "b" := EMPTY])
  }

  lemma ThreeBackupsAreConsistent()
    ensures Inv(ThreeBackups())
  {
    var s := ThreeBackups();
    ThreeIds();
    assert LinkOk(s, "f");
    assert LinkOk(s, "a");
    assert LinkOk(s, "b");
    forall id | id in s.taken ensures LinkOk(s, id) {
      assert id == "f" || id == "a" || id == "b";
    }
    forall i, j | i in s.jobs && j in s.jobs && i != j ensures Apart(s, i, j) {
      ThreePathsDiffer(i, j);
    }
  }

  lemma ThreeIds()
    ensures "a" != "b" && "a" != "f" && "b" != "f"
    ensures "a.tar.gz" != "b.tar.gz" && "a.tar.gz" != "f.tar.gz" && "b.tar.gz" != "f.tar.gz"
  {
    assert "a"[0] != "b"[0] && "a"[0] != "f"[0] && "b"[0] != "f"[0];
    assert "a.tar.gz"[0] != "b.tar.gz"[0] && "a.tar.gz"[0] != "f.tar.gz"[0] && "b.tar.gz"[0] != "f.tar.gz"[0];
  }

  lemma ThreePathsDiffer(i: JobId, j: JobId)
    requires i in ThreeBackups().jobs && j in ThreeBackups().jobs && i != j
    ensures Apart(ThreeBackups(), i, j)
  {
    ThreeIds();
    var s := ThreeBackups();
    assert PathOf(s, "f") == Some("f.tar.gz") && PathOf(s, "a") == Some("a.tar.gz") && PathOf(s, "b") == Some("b.tar.gz");
  }

  lemma AConcreteCycle()
    ensures var s := ThreeBackups();
            && Inv(s)
            && var s1 := WithStatus(s, "a", Running);
            && Enabled(s, Start("a")) && Enabled(s1, Begin("a", None, ["b", "f"]))
            && var s2 := Next(s1, Begin("a", None, ["b", "f"]));
            && Enabled(s2, Dump("a", "a2.tar.gz", NOTHING))
            && var s3 := Next(s2, Dump("a", "a2.tar.gz", NOTHING));
            && Enabled(s3, Commit("a"))
            && forall chain :: IsChain(Next(s3, Commit("a")), chain) ==> Last(chain) != "a"
  {
    ThreeBackupsAreConsistent();
    var s := ThreeBackups();
    ThreeIds();
    ReexecutedBackupAdoptsItsChild(s, "a", "b", ["b", "f"], "a2.tar.gz", NOTHING);
  }
}
