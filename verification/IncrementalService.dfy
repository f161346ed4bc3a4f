/** The service object that takes one physical backup: it settles parent, base and level, runs
    pg_basebackup, and leaves the archive and the cached manifest behind. */
module IncrementalService {
  import opened Wrappers
  import opened JobRecords
  import opened BackupChain
  import opened ChainInvariant
  import opened ParentChoice

  /** What the worker later writes into the row. */
  datatype BackupFields = BackupFields(parent: Option<JobId>, base: JobId, level: nat, filePath: Path, manifest: PageMap)

  /** How the external programs fare. */
  datatype Tools = Work | BasebackupFails | PackingFails

  datatype ServiceError = NoPlan(why: PlanError) | ToolFailed

  /** What one call leaves behind once it has a plan, whichever tool fails. */
  ghost predicate Leaves(planned: State, id: JobId, path: Path, delta: Delta, tools: Tools, t: State) {
    match tools
    case BasebackupFails => t == planned
    case PackingFails => Enabled(planned, PackFails(id)) && t == Next(planned, PackFails(id))
    case Work => Enabled(planned, Dump(id, path, delta)) && t == Next(planned, Dump(id, path, delta))
  }

  /** That keeps the chain invariant under its rules. */
  lemma ExitsKeepInv(
      s: State, id: JobId, requested: Option<JobId>, listing: seq<JobId>, path: Path, delta: Delta, tools: Tools, t: State)
    requires Inv(s) && id !in s.taken && Enabled(s, Begin(id, requested, listing))
    requires Leaves(Next(s, Begin(id, requested, listing)), id, path, delta, tools, t)
    requires tools.Work? ==> PathFree(Next(s, Begin(id, requested, listing)), id, path)
    ensures Inv(t)
  {
    var planned := Next(s, Begin(id, requested, listing));
    StepKeepsInv(s, Begin(id, requested, listing));
    match tools
    case BasebackupFails =>
    case PackingFails => StepKeepsInv(planned, PackFails(id));
    case Work => StepKeepsInv(planned, Dump(id, path, delta));
  }

  /** The SUCCESS row of the attempt will have exactly these fields. */
  ghost predicate WillCommit(s: State, id: JobId, path: Path, f: BackupFields) {
    && id in s.jobs && id in s.attempts && s.attempts[id].Dumped?
    && CommittedRow(s.jobs[id], s.attempts[id].plan, path, s.attempts[id].image)
       == s.jobs[id].(status := Succeeded, parent := f.parent, base := Some(f.base), level := Some(f.level),
            filePath := Some(f.filePath), manifestContent := Some(f.manifest))
  }

  class PostgresIncrementalService {
    const database: string
    var world: State

    constructor (database: string, world: State)
      ensures this.database == database && this.world == world
    {
      this.database := database;
      this.world := world;
    }

    /** `listing` answers the newest-first query; `delta` is what pg_basebackup would emit against the
        chosen manifest. If no plan can be made everything is as it was. Otherwise the plan's step is taken, which
        caches the parent's manifest; then comes the dump, or, if packing fails, only its cached manifest. All of
        these are steps of the state machine, which keep the chain invariant under its rules. */
    method PerformIncrementalBackup(
        id: JobId, requested: Option<JobId>, listing: seq<JobId>, path: Path, delta: Delta, tools: Tools)
      returns (r: Result<BackupFields, ServiceError>)
      requires IsPhysicalJob(world, id) && world.jobs[id].dbName == database
      requires IsListing(world.jobs, database, Descending, listing)
      requires var plan := PlanBackup(world, id, requested, listing);
               plan.Success? && plan.value.parent.Some? ==> Describes(delta, plan.value.against, Cluster(world, database))
      modifies this
      ensures r.Failure? && r.error.NoPlan? <==> PlanBackup(old(world), id, requested, listing).Failure?
      ensures r.Failure? && r.error.NoPlan? ==> world == old(world) && r.error.why == PlanBackup(old(world), id, requested, listing).error
      ensures PlanBackup(old(world), id, requested, listing).Success? ==>
                var begin := Begin(id, requested, listing);
                && Enabled(old(world), begin) && Leaves(Next(old(world), begin), id, path, delta, tools, world)
                && (if tools.Work? then r.Success? else r == Failure(ToolFailed))
      ensures r.Success? ==> WillCommit(world, id, path, r.value)
      ensures r.Success? && old(world).jobs[id].backupType.IncrementalBackup? ==>
                RightParent(old(world), database, requested, r.value.parent)
      ensures (Inv(old(world)) && id !in old(world).taken
               && (r.Success? ==> PathFree(Next(old(world), Begin(id, requested, listing)), id, path))) ==> Inv(world)
    {
      ghost var before := world;
      r := PlanAndDump(id, requested, listing, path, delta, tools);
      if PlanBackup(before, id, requested, listing).Success? && Inv(before) && id !in before.taken
         && (r.Success? ==> PathFree(Next(before, Begin(id, requested, listing)), id, path)) {
        ExitsKeepInv(before, id, requested, listing, path, delta, tools, world);
      }
    }

    /** The call itself. */
    method PlanAndDump(
        id: JobId, requested: Option<JobId>, listing: seq<JobId>, path: Path, delta: Delta, tools: Tools)
      returns (r: Result<BackupFields, ServiceError>)
      requires IsPhysicalJob(world, id) && world.jobs[id].dbName == database
      requires IsListing(world.jobs, database, Descending, listing)
      requires var plan := PlanBackup(world, id, requested, listing);
               plan.Success? && plan.value.parent.Some? ==> Describes(delta, plan.value.against, Cluster(world, database))
      modifies this
      ensures r.Failure? && r.error.NoPlan? <==> PlanBackup(old(world), id, requested, listing).Failure?
      ensures r.Failure? && r.error.NoPlan? ==> world == old(world) && r.error.why == PlanBackup(old(world), id, requested, listing).error
      ensures PlanBackup(old(world), id, requested, listing).Success? ==>
                var begin := Begin(id, requested, listing);
                && Enabled(old(world), begin) && Leaves(Next(old(world), begin), id, path, delta, tools, world)
                && (if tools.Work? then r.Success? else r == Failure(ToolFailed))
      ensures r.Success? ==> WillCommit(world, id, path, r.value)
      ensures r.Success? && old(world).jobs[id].backupType.IncrementalBackup? ==>
                RightParent(old(world), database, requested, r.value.parent)
    {
      var settled := SettleParent(id, requested, listing);
      if settled.Failure? {
        return Failure(NoPlan(settled.error));
      }
      r := DumpAndPack(id, settled.value, path, delta, tools);
    }

    /** The part that settles parent, base, level and manifest, which is cached under the parent's id. */
    method SettleParent(id: JobId, requested: Option<JobId>, listing: seq<JobId>) returns (r: Result<Plan, PlanError>)
      requires IsPhysicalJob(world, id) && world.jobs[id].dbName == database
      requires IsListing(world.jobs, database, Descending, listing)
      modifies this
      ensures r == PlanBackup(old(world), id, requested, listing)
      ensures r.Failure? ==> world == old(world)
      ensures r.Success? ==>
                && Enabled(old(world), Begin(id, requested, listing)) && world == Next(old(world), Begin(id, requested, listing))
                && id in world.attempts && world.attempts[id] == Planned(r.value)
                && (r.value.parent.Some? ==> world.manifests == old(world).manifests[r.value.parent.value := r.value.against])
                && (old(world).jobs[id].backupType.IncrementalBackup? ==> RightParent(old(world), database, requested, r.value.parent))
                && IsPhysicalJob(world, id) && world.jobs == old(world).jobs && world.clusters == old(world).clusters
    {
      r := ChooseParent(id, requested, listing);
      ParentIsTheRequestedOrNewest(world, id, requested, listing);
      if r.Success? {
        if r.value.parent.Some? {
          world := world.(manifests := world.manifests[r.value.parent.value := r.value.against]);
        }
        world := world.(attempts := world.attempts[id := Planned(r.value)]);
      }
    }

    method ChooseParent(id: JobId, requested: Option<JobId>, listing: seq<JobId>) returns (r: Result<Plan, PlanError>)
      requires id in world.jobs && world.jobs[id].dbName == database
      ensures r == PlanBackup(world, id, requested, listing)
    {
      var baseBackupId := id;
      var parentBackupId: Option<JobId> := None;
      var backupLevel := 0;
      var parentManifest: PageMap := map[];
      if world.jobs[id].backupType.IncrementalBackup? {
        var chosen := GetParentBackup(world, database, requested, listing);
        if chosen.Failure? {
          return Failure(chosen.error);
        }
        var parent := chosen.value;
        if parent !in world.jobs {
          return Failure(ParentInvalid);
        }
        var manifest := ParentManifest(world, parent);
        if manifest.None? {
          return Failure(ManifestMissing);
        }
        parentBackupId := Some(parent);
        baseBackupId := Base(parent, world.jobs[parent]);
        backupLevel := Level(world.jobs[parent]) + 1;
        parentManifest := manifest.value;
      }
      r := Success(Plan(parentBackupId, baseBackupId, backupLevel, parentManifest));
    }

    /** The part that runs pg_basebackup and tar. */
    method DumpAndPack(id: JobId, plan: Plan, path: Path, delta: Delta, tools: Tools) returns (r: Result<BackupFields, ServiceError>)
      requires IsPhysicalJob(world, id) && world.jobs[id].dbName == database && id in world.attempts && world.attempts[id] == Planned(plan)
      requires plan.parent.Some? ==> Describes(delta, plan.against, Cluster(world, database))
      modifies this
      ensures Leaves(old(world), id, path, delta, tools, world)
      ensures if tools.Work? then r.Success? && r.value.parent == plan.parent && WillCommit(world, id, path, r.value)
              else r == Failure(ToolFailed)
      ensures tools.PackingFails? ==>
                world == old(world).(manifests := old(world).manifests[id := Cluster(old(world), database)])
    {
      if tools.BasebackupFails? {
        return Failure(ToolFailed);
      }
      var image := Cluster(world, database);
      world := world.(manifests := world.manifests[id := image]);
      if tools.PackingFails? {
        return Failure(ToolFailed);
      }
      world := world.(files := world.files[path := Archive(plan, image, delta)], attempts := world.attempts[id := Dumped(plan, path, image)]);
      r := Success(BackupFields(plan.parent, plan.base, plan.level, path, image));
    }
  }
}
