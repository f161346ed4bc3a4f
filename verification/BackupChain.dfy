/**
 Physical PostgreSQL backups: what a backup artifact holds, how a parent is chosen, and the
 state machine of an evolving cluster, the job rows, the artifacts on disk and the cached manifests.
 */
module BackupChain {
  import opened Wrappers
  import opened JobRecords

  // ---------- Artifacts ----------

  /** What `pg_basebackup --incremental` stores: the blocks that exist, and the content of the
      blocks the WAL summaries report as touched. */
  datatype Delta = Delta(live: set<nat>, changed: map<nat, string>)

  datatype Image = FullImage(pages: PageMap) | IncrementalImage(delta: Delta)

  /** Every physical archive carries its own backup_manifest; a logical dump carries none. */
  datatype Artifact = PhysicalTar(image: Image, manifest: PageMap) | LogicalDump

  /** `d` is a correct incremental from `before` to `after`. It may repeat blocks that did not change. */
  ghost predicate Describes(d: Delta, before: PageMap, after: PageMap) {
    && d.live == after.Keys
    && d.changed.Keys <= d.live
    && (forall p :: p in d.changed ==> d.changed[p] == after[p])
    && (forall p :: p in d.live && p !in d.changed ==> p in before && before[p] == after[p])
  }

  /** One step of pg_combinebackup: only the first directory may hold a full backup, and a block the
      incremental does not carry has to come from the directory before it. */
  function Overlay(before: PageMap, image: Image): Option<PageMap> {
    match image
    case FullImage(_) => None
    case IncrementalImage(d) =>
      if d.live - d.changed.Keys <= before.Keys
      then Some(map p | p in d.live :: if p in d.changed then d.changed[p] else before[p])
      else None
  }

  /** pg_combinebackup over directories listed root first. */
  function Combine(images: seq<Image>): Option<PageMap> {
    if |images| == 0 then None
    else if |images| == 1 then
      match images[0]
      case FullImage(pages) => Some(pages)
      case IncrementalImage(_) => None
    else
      match Combine(images[..|images| - 1])
      case None => None
      case Some(before) => Overlay(before, images[|images| - 1])
  }

  // ---------- State ----------

  /** What one run decided before it called pg_basebackup; `against` is the manifest it passes on. */
  datatype Plan = Plan(parent: Option<JobId>, base: JobId, level: nat, against: PageMap)

  datatype Attempt = Planned(plan: Plan) | Dumped(plan: Plan, path: Path, image: PageMap)

  /** `taken` is history: the cluster image behind each physical backup that reached SUCCESS. */
  datatype State = State(
    clusters: map<string, PageMap>,
    jobs: map<JobId, Job>,
    files: map<Path, Artifact>,
    manifests: map<JobId, PageMap>,
    attempts: map<JobId, Attempt>,
    taken: map<JobId, PageMap>)

  const INITIAL: State := State(map[], map[], map[], map[], map[], map[])

  function Cluster(s: State, dbName: string): PageMap {
    if dbName in s.clusters then s.clusters[dbName] else map[]
  }

  /** A null level reads as 0 and a null base as the job itself. */
  function Level(job: Job): nat {
    if job.level.Some? then job.level.value else 0
  }

  function Base(id: JobId, job: Job): JobId {
    if job.base.Some? then job.base.value else id
  }

  // ---------- Choosing a parent ----------

  datatype PlanError = ParentInvalid | OtherDatabase | NoPhysicalBase | ManifestMissing

  function ParentManifest(s: State, id: JobId): Option<PageMap>
    requires id in s.jobs
  {
    var job := s.jobs[id];
    if id in s.manifests then Some(s.manifests[id])
    else if job.filePath.Some? && job.filePath.value in s.files && s.files[job.filePath.value].PhysicalTar?
    then Some(s.files[job.filePath.value].manifest)
    else job.manifestContent
  }

  predicate LooksPhysical(s: State, id: JobId) {
    id in s.jobs && (s.jobs[id].level.Some? || id in s.manifests || s.jobs[id].manifestContent.Some?)
  }

  function FirstPhysical(s: State, listing: seq<JobId>): (r: Option<JobId>)
    ensures r.Some? ==> r.value in listing && LooksPhysical(s, r.value)
    ensures r.None? ==> forall id :: id in listing ==> !LooksPhysical(s, id)
  {
    if |listing| == 0 then None
    else if LooksPhysical(s, listing[0]) then Some(listing[0])
    else FirstPhysical(s, listing[1..])
  }

  /** `listing` answers the newest-first query and is used only when no parent id was requested. */
  function GetParentBackup(s: State, dbName: string, requested: Option<JobId>, listing: seq<JobId>): Result<JobId, PlanError> {
    if requested.Some? && requested.value != "" then
      var p := requested.value;
      if p !in s.jobs || !s.jobs[p].status.Succeeded? then Failure(ParentInvalid)
      else if !s.jobs[p].dbType.Postgresql? || s.jobs[p].dbName != dbName then Failure(OtherDatabase)
      else Success(p)
    else
      match FirstPhysical(s, listing)
      case None => Failure(NoPhysicalBase)
      case Some(p) => Success(p)
  }

  function PlanBackup(s: State, id: JobId, requested: Option<JobId>, listing: seq<JobId>): Result<Plan, PlanError>
    requires id in s.jobs
  {
    if s.jobs[id].backupType != IncrementalBackup then Success(Plan(None, id, 0, map[]))
    else
      var p :- GetParentBackup(s, s.jobs[id].dbName, requested, listing);
      if p !in s.jobs then Failure(ParentInvalid)
      else
        match ParentManifest(s, p)
        case None => Failure(ManifestMissing)
        case Some(m) => Success(Plan(Some(p), Base(p, s.jobs[p]), Level(s.jobs[p]) + 1, m))
  }

  /** The archive one run writes: a full image without a parent, otherwise the delta. */
  function Archive(plan: Plan, image: PageMap, delta: Delta): Artifact {
    PhysicalTar(if plan.parent.None? then FullImage(image) else IncrementalImage(delta), image)
  }

  // ---------- Steps ----------

  /** A PITR base is uploaded and its row names the object relative to the storage root; `opens` says whether that path,
      taken as a local file where restores run, is the object. */
  datatype Event =
    | Write(dbName: string, pages: PageMap)
    | Submit(id: JobId, dbType: DbType, dbName: string, backupType: BackupType, physical: bool, at: Instant)
    | Start(id: JobId)
    | Begin(id: JobId, requested: Option<JobId>, listing: seq<JobId>)
    | Dump(id: JobId, path: Path, delta: Delta)
    | PackFails(id: JobId)
    | Commit(id: JobId)
    | LogicalSuccess(id: JobId, path: Path)
    | TakePitrBase(id: JobId, dbName: string, path: Path, at: Instant, opens: bool)
    | MarkFailed(id: JobId)
    | Cancel(id: JobId)
    | RemoveFile(path: Path)

  predicate IsPhysicalJob(s: State, id: JobId) {
    id in s.jobs && s.jobs[id].dbType.Postgresql? && s.jobs[id].physical && !s.jobs[id].backupType.PitrBase?
  }

  /** What the programs allow. Ids are fresh UUIDs; a run writes SUCCESS only after its dump;
      pg_basebackup produces a correct incremental against the manifest it is given. The new manifest is
      cached before the archive is packed, so packing that fails leaves it behind. */
  ghost predicate Enabled(s: State, e: Event) {
    match e
    case Write(_, _) => true
    case Submit(id, _, _, t, physical, _) => id !in s.jobs && !t.PitrBase? && (t.IncrementalBackup? ==> physical)
    case Start(id) => id in s.jobs
    case Begin(id, requested, listing) =>
      && IsPhysicalJob(s, id)
      && IsListing(s.jobs, s.jobs[id].dbName, Descending, listing)
      && PlanBackup(s, id, requested, listing).Success?
    case Dump(id, _, delta) =>
      && IsPhysicalJob(s, id) && id in s.attempts && s.attempts[id].Planned?
      && (s.attempts[id].plan.parent.Some? ==>
            Describes(delta, s.attempts[id].plan.against, Cluster(s, s.jobs[id].dbName)))
    case PackFails(id) => IsPhysicalJob(s, id) && id in s.attempts && s.attempts[id].Planned?
    case Commit(id) => IsPhysicalJob(s, id) && id in s.attempts && s.attempts[id].Dumped?
    case LogicalSuccess(id, _) => id in s.jobs && !s.jobs[id].physical
    case TakePitrBase(id, _, _, _, _) => id !in s.jobs
    case MarkFailed(id) => id in s.jobs
    case Cancel(id) => id in s.jobs
    case RemoveFile(_) => true
  }

  function WithStatus(s: State, id: JobId, status: Status): State
    requires id in s.jobs
  {
    s.(jobs := s.jobs[id := s.jobs[id].(status := status)])
  }

  /** The manifest used is cached under the parent's id on the way. */
  ghost function AfterBegin(s: State, id: JobId, plan: Plan): State {
    s.(manifests := if plan.parent.Some? then s.manifests[plan.parent.value := plan.against] else s.manifests,
       attempts := s.attempts[id := Planned(plan)])
  }

  function AfterDump(s: State, id: JobId, plan: Plan, path: Path, delta: Delta, image: PageMap): State {
    s.(files := s.files[path := Archive(plan, image, delta)],
       manifests := s.manifests[id := image],
       attempts := s.attempts[id := Dumped(plan, path, image)])
  }

  /** The row the worker writes on SUCCESS. */
  function CommittedRow(job: Job, plan: Plan, path: Path, image: PageMap): Job {
    job.(status := Succeeded, parent := plan.parent, base := Some(plan.base), level := Some(plan.level),
         filePath := Some(path), manifestContent := Some(image))
  }

  function PitrRow(dbName: string, path: Path, at: Instant): Job {
    Job(Postgresql, dbName, PitrBase, true, Succeeded, at, None, None, None, Some(path), None)
  }

  ghost function Next(s: State, e: Event): State
    requires Enabled(s, e)
  {
    match e
    case Write(dbName, pages) => s.(clusters := s.clusters[dbName := pages])
    case Submit(id, dbType, dbName, t, physical, at) =>
      s.(jobs := s.jobs[id := Job(dbType, dbName, t, physical, Running, at, None, None, None, None, None)])
    case Start(id) => WithStatus(s, id, Running)
    case Begin(id, requested, listing) => AfterBegin(s, id, PlanBackup(s, id, requested, listing).value)
    case Dump(id, path, delta) =>
      AfterDump(s, id, s.attempts[id].plan, path, delta, Cluster(s, s.jobs[id].dbName))
    case PackFails(id) => s.(manifests := s.manifests[id := Cluster(s, s.jobs[id].dbName)])
    case Commit(id) =>
      var a := s.attempts[id];
      s.(jobs := s.jobs[id := CommittedRow(s.jobs[id], a.plan, a.path, a.image)],
         attempts := s.attempts - {id}, taken := s.taken[id := a.image])
    case LogicalSuccess(id, path) =>
      s.(jobs := s.jobs[id := s.jobs[id].(status := Succeeded, filePath := Some(path))],
         files := s.files[path := LogicalDump])
    case TakePitrBase(id, dbName, path, at, opens) =>
      var image := Cluster(s, dbName);
      s.(jobs := s.jobs[id := PitrRow(dbName, path, at)],
         files := if opens then s.files[path := PhysicalTar(FullImage(image), image)] else s.files,
         taken := s.taken[id := image])
    case MarkFailed(id) => WithStatus(s, id, Failed).(attempts := s.attempts - {id})
    case Cancel(id) => WithStatus(s, id, Cancelled)
    case RemoveFile(path) => s.(files := s.files - {path})
  }

  // ---------- The two rules the guarantees need ----------

  /** The path an id's archive occupies: promised by its row, or already written by its running attempt. */
  function PathOf(s: State, id: JobId): Option<Path> {
    if id in s.attempts && s.attempts[id].Dumped? then Some(s.attempts[id].path)
    else if id in s.jobs then s.jobs[id].filePath
    else None
  }

  ghost predicate PathFree(s: State, id: JobId, path: Path) {
    forall j {:trigger PathOf(s, j)} :: (j in s.jobs || j in s.attempts) && j != id ==> PathOf(s, j) != Some(path)
  }

  /** A job that reached SUCCESS is not executed again, and no archive is written over another job's; nor does a base
      come to point at a file that is there already. */
  ghost predicate Disciplined(s: State, e: Event) {
    match e
    case Start(id) => id !in s.taken
    case Begin(id, _, _) => id !in s.taken
    case Dump(id, path, _) => PathFree(s, id, path)
    case LogicalSuccess(id, path) => PathFree(s, id, path)
    case TakePitrBase(id, _, path, _, opens) => PathFree(s, id, path) && (opens || path !in s.files)
    case _ => true
  }

  ghost predicate Steps(s: State, e: Event, t: State) {
    Enabled(s, e) && Disciplined(s, e) && t == Next(s, e)
  }

  /** A run of the programs from an empty installation under the two rules. */
  ghost predicate Run(states: seq<State>, events: seq<Event>) {
    && |states| == |events| + 1
    && states[0] == INITIAL
    && forall i {:trigger events[i]} :: 0 <= i < |events| ==> Steps(states[i], events[i], states[i + 1])
  }

  // ---------- The invariant ----------

  /** A finished physical backup: its parent link, its level, its base, its manifests and its archive agree. */
  ghost predicate LinkOk(s: State, id: JobId)
    requires id in s.taken
  {
    && id in s.jobs && s.jobs[id].dbType.Postgresql? && s.jobs[id].physical && s.jobs[id].filePath.Some?
    && (s.jobs[id].manifestContent.Some? ==> s.jobs[id].manifestContent.value == s.taken[id])
    && (id in s.manifests ==> s.manifests[id] == s.taken[id])
    && id !in s.attempts
    && ParentOk(s, id, s.jobs[id].dbName, s.jobs[id].parent, Base(id, s.jobs[id]), Level(s.jobs[id]))
    && (s.jobs[id].filePath.value in s.files ==>
          ArchiveOk(s, s.jobs[id].parent, s.taken[id], s.files[s.jobs[id].filePath.value]))
  }

  ghost predicate ParentOk(s: State, id: JobId, dbName: string, parent: Option<JobId>, base: JobId, level: nat) {
    match parent
    case None => level == 0 && base == id
    case Some(p) =>
      && p in s.taken && p in s.jobs && s.jobs[p].dbName == dbName
      && level == Level(s.jobs[p]) + 1 && base == Base(p, s.jobs[p])
  }

  ghost predicate ArchiveOk(s: State, parent: Option<JobId>, image: PageMap, a: Artifact) {
    && a.PhysicalTar? && a.manifest == image
    && match parent
       case None => a.image == FullImage(image)
       case Some(p) => p in s.taken && a.image.IncrementalImage? && Describes(a.image.delta, s.taken[p], image)
  }

  ghost predicate AttemptOk(s: State, id: JobId)
    requires id in s.attempts
  {
    var a := s.attempts[id];
    && id !in s.taken && IsPhysicalJob(s, id)
    && ParentOk(s, id, s.jobs[id].dbName, a.plan.parent, a.plan.base, a.plan.level)
    && (a.plan.parent.Some? ==> a.plan.against == s.taken[a.plan.parent.value])
    && (a.Dumped? ==> id in s.manifests && s.manifests[id] == a.image)
    && (a.Dumped? && a.path in s.files ==> ArchiveOk(s, a.plan.parent, a.image, s.files[a.path]))
  }

  /** A row that is not a finished physical backup offers no manifest once it is successful. */
  ghost predicate OtherOk(s: State, id: JobId)
    requires id in s.jobs
  {
    var job := s.jobs[id];
    && job.manifestContent.None? && job.parent.None? && job.level.None? && !job.backupType.PitrBase?
    && (job.physical ==> !job.status.Succeeded? && job.filePath.None?)
    && (!job.physical ==> id !in s.manifests && !job.backupType.IncrementalBackup?)
    && (job.filePath.Some? && job.filePath.value in s.files ==> s.files[job.filePath.value].LogicalDump?)
  }

  ghost predicate Inv(s: State) {
    && (forall id {:trigger LinkOk(s, id)} :: id in s.taken ==> LinkOk(s, id))
    && (forall id {:trigger AttemptOk(s, id)} :: id in s.attempts ==> AttemptOk(s, id))
    && (forall id {:trigger OtherOk(s, id)} :: id in s.jobs && id !in s.taken ==> OtherOk(s, id))
    && (forall id :: id in s.manifests ==> id in s.jobs)
    && (forall i, j {:trigger Apart(s, i, j)} :: i in s.jobs && j in s.jobs && i != j ==> Apart(s, i, j))
  }

  /** No two archives share a path. */
  predicate Apart(s: State, i: JobId, j: JobId) {
    PathOf(s, i).Some? ==> PathOf(s, i) != PathOf(s, j)
  }
}
