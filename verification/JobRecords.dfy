/** The backup job rows kept by the metadata service, and its sorted listing of them. */
module JobRecords {
  import opened Wrappers

  type JobId = string
  type Path = string
  type Instant = int

  /** A cluster as the physical backup tools see it: block number to block content. */
  type PageMap = map<nat, string>

  datatype DbType = Postgresql | Mysql | Mongodb | Sqlite

  datatype BackupType = FullBackup | IncrementalBackup | PitrBase

  datatype Status = Running | Succeeded | Failed | Cancelled

  /** `physical` is the queued request's choice of pg_basebackup over pg_dump.
      `manifestContent` is the backup manifest a successful run leaves in the row's metadata;
      a manifest stands for the cluster image it describes. */
  datatype Job = Job(
    dbType: DbType,
    dbName: string,
    backupType: BackupType,
    physical: bool,
    status: Status,
    startedAt: Instant,
    parent: Option<JobId>,
    base: Option<JobId>,
    level: Option<nat>,
    filePath: Option<Path>,
    manifestContent: Option<PageMap>)

  datatype Order = Ascending | Descending

  predicate InOrder(order: Order, a: Instant, b: Instant) {
    if order.Ascending? then a <= b else b <= a
  }

  /** The rows every caller in this model asks for: successful jobs of one PostgreSQL database. */
  predicate Matches(job: Job, dbName: string) {
    job.dbType.Postgresql? && job.dbName == dbName && job.status.Succeeded?
  }

  /** `listing` is an answer the metadata service may give: exactly the matching rows, each once,
      sorted by start time; rows that started together come in any order. */
  ghost predicate IsListing(jobs: map<JobId, Job>, dbName: string, order: Order, listing: seq<JobId>) {
    && (forall i, j :: 0 <= i < j < |listing| ==> listing[i] != listing[j])
    && (forall id :: id in listing <==> id in jobs && Matches(jobs[id], dbName))
    && (forall i, j :: 0 <= i < j < |listing| ==> InOrder(order, jobs[listing[i]].startedAt, jobs[listing[j]].startedAt))
  }
}
