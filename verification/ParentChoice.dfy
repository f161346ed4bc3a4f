/** Which backup an incremental is taken against, row by row: what a requested parent has to be, and which one is
    taken when none is requested. */
module ParentChoice {
  import opened Wrappers
  import opened JobRecords
  import opened BackupChain

  /** A successful PostgreSQL backup of the database. */
  predicate SuccessfulOf(s: State, dbName: string, p: JobId) {
    p in s.jobs && s.jobs[p].status.Succeeded? && s.jobs[p].dbType.Postgresql? && s.jobs[p].dbName == dbName
  }

  /** A manifest for it is cached, or in its archive on disk, or in its row. */
  predicate OffersManifest(s: State, p: JobId) {
    p in s.jobs &&
    (p in s.manifests || s.jobs[p].manifestContent.Some?
     || (s.jobs[p].filePath.Some? && s.jobs[p].filePath.value in s.files && s.files[s.jobs[p].filePath.value] != LogicalDump))
  }

  /** Among them, what an incremental may be taken against unasked. */
  predicate Candidate(s: State, dbName: string, p: JobId) {
    SuccessfulOf(s, dbName, p) && (s.jobs[p].level != None || p in s.manifests || s.jobs[p].manifestContent != None)
  }

  ghost predicate Newest(s: State, dbName: string, p: JobId) {
    Candidate(s, dbName, p) && forall j :: Candidate(s, dbName, j) ==> s.jobs[j].startedAt <= s.jobs[p].startedAt
  }

  /** The requested one, or if none is, a newest candidate. */
  ghost predicate RightParent(s: State, dbName: string, requested: Option<JobId>, parent: Option<JobId>) {
    if requested.Some? && requested.value != "" then parent == requested
    else parent.Some? && Newest(s, dbName, parent.value)
  }

  /** The plan made against a parent: one level above it, with its base; a parent without either is the base itself. */
  predicate PlannedAgainst(s: State, plan: Plan, p: JobId) {
    && p in s.jobs && plan.parent == Some(p)
    && (if s.jobs[p].level == None then plan.level == 1 else plan.level == s.jobs[p].level.value + 1)
    && (if s.jobs[p].base == None then plan.base == p else Some(plan.base) == s.jobs[p].base)
  }

  /** A requested parent is the parent, or the backup is refused: if it is unknown or not successful, if it is of another
      database, or if no manifest of it is left, in this order. The listing plays no part. */
  lemma RequestedParentIsTheParent(s: State, id: JobId, p: JobId, listing: seq<JobId>)
    requires id in s.jobs && s.jobs[id].backupType.IncrementalBackup? && p != ""
    ensures match PlanBackup(s, id, Some(p), listing)
            case Success(plan) => SuccessfulOf(s, s.jobs[id].dbName, p) && OffersManifest(s, p) && PlannedAgainst(s, plan, p)
            case Failure(ParentInvalid) => p !in s.jobs || s.jobs[p].status != Succeeded
            case Failure(OtherDatabase) =>
              p in s.jobs && s.jobs[p].status == Succeeded && (s.jobs[p].dbType != Postgresql || s.jobs[p].dbName != s.jobs[id].dbName)
            case Failure(NoPhysicalBase) => false
            case Failure(ManifestMissing) => SuccessfulOf(s, s.jobs[id].dbName, p) && !OffersManifest(s, p)
  {
  }

  lemma {:induction false} FirstPhysicalIsFirst(s: State, listing: seq<JobId>) returns (i: nat)
    requires FirstPhysical(s, listing).Some?
    ensures i < |listing| && listing[i] == FirstPhysical(s, listing).value
    ensures forall j :: 0 <= j < i ==> !LooksPhysical(s, listing[j])
    decreases |listing|
  {
    if LooksPhysical(s, listing[0]) {
      i := 0;
    } else {
      var k := FirstPhysicalIsFirst(s, listing[1..]);
      i := k + 1;
      forall j | 0 <= j < i ensures !LooksPhysical(s, listing[j]) {
        if j > 0 { assert listing[1..][j - 1] == listing[j]; }
      }
    }
  }

  /** Over any listing the metadata service may give, whatever order it puts simultaneous rows in, the first that
      looks physical is a newest one, and there is none only if the database has no candidate. */
  lemma FirstPhysicalIsNewest(s: State, dbName: string, listing: seq<JobId>)
    requires IsListing(s.jobs, dbName, Descending, listing)
    ensures match FirstPhysical(s, listing)
            case Some(p) => Newest(s, dbName, p)
            case None => forall j :: !Candidate(s, dbName, j)
  {
    if FirstPhysical(s, listing).None? {
      forall j ensures !Candidate(s, dbName, j) {
        if Candidate(s, dbName, j) { assert j in listing && LooksPhysical(s, j); }
      }
    } else {
      var i := FirstPhysicalIsFirst(s, listing);
      var p := listing[i];
      forall j | Candidate(s, dbName, j) ensures s.jobs[j].startedAt <= s.jobs[p].startedAt {
        assert j in listing && LooksPhysical(s, j);
        var k :| 0 <= k < |listing| && listing[k] == j;
        assert k >= i;
      }
    }
  }

  /** Without a request a newest candidate is the parent. The backup is refused exactly if there is no candidate, or if
      no manifest is left of the newest that the listing names first. */
  lemma NewestCandidateIsTheParent(s: State, id: JobId, requested: Option<JobId>, listing: seq<JobId>)
    requires id in s.jobs && s.jobs[id].backupType.IncrementalBackup? && (requested == None || requested == Some(""))
    requires IsListing(s.jobs, s.jobs[id].dbName, Descending, listing)
    ensures match PlanBackup(s, id, requested, listing)
            case Success(plan) =>
              plan.parent.Some? && PlannedAgainst(s, plan, plan.parent.value) && OffersManifest(s, plan.parent.value)
              && Newest(s, s.jobs[id].dbName, plan.parent.value)
            case Failure(NoPhysicalBase) => forall j :: !Candidate(s, s.jobs[id].dbName, j)
            case Failure(ManifestMissing) => exists p :: Newest(s, s.jobs[id].dbName, p) && !OffersManifest(s, p)
            case Failure(_) => false
  {
    FirstPhysicalIsNewest(s, s.jobs[id].dbName, listing);
    if FirstPhysical(s, listing).Some? {
      assert FirstPhysical(s, listing).value in listing;
    }
  }

  lemma ParentIsTheRequestedOrNewest(s: State, id: JobId, requested: Option<JobId>, listing: seq<JobId>)
    requires id in s.jobs && IsListing(s.jobs, s.jobs[id].dbName, Descending, listing)
    ensures var r := PlanBackup(s, id, requested, listing);
            r.Success? && s.jobs[id].backupType.IncrementalBackup? ==> RightParent(s, s.jobs[id].dbName, requested, r.value.parent)
  {
    if s.jobs[id].backupType.IncrementalBackup? {
      if requested.Some? && requested.value != "" { RequestedParentIsTheParent(s, id, requested.value, listing); }
      else { NewestCandidateIsTheParent(s, id, requested, listing); }
    }
  }

  /** A backup that is not an incremental has no parent, whatever is requested or listed. */
  lemma FullBackupsAreRoots(s: State, id: JobId, requested: Option<JobId>, listing: seq<JobId>)
    requires id in s.jobs && !s.jobs[id].backupType.IncrementalBackup?
    ensures var r := PlanBackup(s, id, requested, listing);
            r.Success? && r.value.parent == None && r.value.base == id && r.value.level == 0
  {
  }
}
