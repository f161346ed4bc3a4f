/** Point-in-time recovery: which base backup a target time is recovered from, and what the status report promises. */
module PitrSelection {
  import opened Wrappers
  import opened JobRecords

  predicate IsBase(jobs: map<JobId, Job>, id: JobId) {
    id in jobs && jobs[id].backupType.PitrBase?
  }

  /** The first PITR base in a newest-first listing that started at or before the target. */
  function SelectBase(jobs: map<JobId, Job>, newestFirst: seq<JobId>, target: Instant): Option<JobId> {
    if |newestFirst| == 0 then None
    else if IsBase(jobs, newestFirst[0]) && jobs[newestFirst[0]].startedAt <= target then Some(newestFirst[0])
    else SelectBase(jobs, newestFirst[1..], target)
  }

  /** The status report's earliest recoverable time: the start of the first PITR base in an oldest-first listing. */
  function EarliestRecoverable(jobs: map<JobId, Job>, oldestFirst: seq<JobId>): Option<Instant> {
    if |oldestFirst| == 0 then None
    else if IsBase(jobs, oldestFirst[0]) then Some(jobs[oldestFirst[0]].startedAt)
    else EarliestRecoverable(jobs, oldestFirst[1..])
  }

  ghost predicate Ordered(jobs: map<JobId, Job>, order: Order, listing: seq<JobId>) {
    && (forall i :: 0 <= i < |listing| ==> listing[i] in jobs)
    && (forall i, j :: 0 <= i < j < |listing| ==> InOrder(order, jobs[listing[i]].startedAt, jobs[listing[j]].startedAt))
  }

  lemma {:induction false} SelectIsGreatest(jobs: map<JobId, Job>, newestFirst: seq<JobId>, target: Instant)
    requires Ordered(jobs, Descending, newestFirst)
    ensures var r := SelectBase(jobs, newestFirst, target);
            && (r.Some? ==> r.value in newestFirst && IsBase(jobs, r.value) && jobs[r.value].startedAt <= target)
            && (forall id :: id in newestFirst && IsBase(jobs, id) && jobs[id].startedAt <= target ==>
                  r.Some? && jobs[id].startedAt <= jobs[r.value].startedAt)
    decreases |newestFirst|
  {
    if |newestFirst| > 0 {
      SelectIsGreatest(jobs, newestFirst[1..], target);
      forall id | id in newestFirst ensures id == newestFirst[0] || id in newestFirst[1..] {
        var i :| 0 <= i < |newestFirst| && newestFirst[i] == id;
        if i > 0 { assert newestFirst[1..][i - 1] == id; }
      }
      forall id | id in newestFirst[1..] ensures jobs[id].startedAt <= jobs[newestFirst[0]].startedAt {
        var i :| 0 <= i < |newestFirst| - 1 && newestFirst[1..][i] == id;
        assert newestFirst[i + 1] == id;
      }
    }
  }

  lemma {:induction false} EarliestIsLeast(jobs: map<JobId, Job>, oldestFirst: seq<JobId>)
    requires Ordered(jobs, Ascending, oldestFirst)
    ensures var r := EarliestRecoverable(jobs, oldestFirst);
            && (r.Some? ==> exists id :: id in oldestFirst && IsBase(jobs, id) && jobs[id].startedAt == r.value)
            && (forall id :: id in oldestFirst && IsBase(jobs, id) ==> r.Some? && r.value <= jobs[id].startedAt)
    decreases |oldestFirst|
  {
    if |oldestFirst| > 0 {
      EarliestIsLeast(jobs, oldestFirst[1..]);
      forall id | id in oldestFirst ensures id == oldestFirst[0] || id in oldestFirst[1..] {
        var i :| 0 <= i < |oldestFirst| && oldestFirst[i] == id;
        if i > 0 { assert oldestFirst[1..][i - 1] == id; }
      }
      forall id | id in oldestFirst[1..] ensures jobs[oldestFirst[0]].startedAt <= jobs[id].startedAt {
        var i :| 0 <= i < |oldestFirst| - 1 && oldestFirst[1..][i] == id;
        assert oldestFirst[i + 1] == id;
      }
    }
  }

  /** A successful PITR base of the database. */
  predicate Usable(jobs: map<JobId, Job>, dbName: string, id: JobId) {
    && id in jobs && jobs[id].backupType == PitrBase
    && jobs[id].dbType == Postgresql && jobs[id].dbName == dbName && jobs[id].status == Succeeded
  }

  /** The selection is a successful base of this database, and none that started by the target started later. */
  lemma SelectionIsTheLatestBase(jobs: map<JobId, Job>, dbName: string, newestFirst: seq<JobId>, target: Instant)
    requires IsListing(jobs, dbName, Descending, newestFirst)
    ensures var r := SelectBase(jobs, newestFirst, target);
            && (r.Some? ==> Usable(jobs, dbName, r.value) && jobs[r.value].startedAt <= target)
            && (forall id :: Usable(jobs, dbName, id) && jobs[id].startedAt <= target ==>
                  r.Some? && jobs[id].startedAt <= jobs[r.value].startedAt)
  {
    SelectIsGreatest(jobs, newestFirst, target);
  }

  /** A restore finds a base exactly when the target is at or after the earliest recoverable time the status
      report gives for the same store, whatever order either listing gives to simultaneous rows. */
  lemma RestorableExactlyFromTheReportedTime(
      jobs: map<JobId, Job>, dbName: string, newestFirst: seq<JobId>, oldestFirst: seq<JobId>, target: Instant)
    requires IsListing(jobs, dbName, Descending, newestFirst) && IsListing(jobs, dbName, Ascending, oldestFirst)
    ensures var earliest := EarliestRecoverable(jobs, oldestFirst);
            && (SelectBase(jobs, newestFirst, target).Some? <==> earliest.Some? && earliest.value <= target)
            && (SelectBase(jobs, newestFirst, target).Some? <==> exists id :: Usable(jobs, dbName, id) && jobs[id].startedAt <= target)
  {
    SelectIsGreatest(jobs, newestFirst, target);
    EarliestIsLeast(jobs, oldestFirst);
    var r := SelectBase(jobs, newestFirst, target);
    if r.Some? {
      assert r.value in oldestFirst;
    }
    var earliest := EarliestRecoverable(jobs, oldestFirst);
    if earliest.Some? && earliest.value <= target {
      var id :| id in oldestFirst && IsBase(jobs, id) && jobs[id].startedAt == earliest.value;
      assert id in newestFirst;
    }
  }
}
