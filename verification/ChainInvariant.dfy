/** Every step of the programs keeps the chain invariant. */
module ChainInvariant {
  import opened Wrappers
  import opened JobRecords
  import opened BackupChain

  lemma FinishedIsPhysical(s: State, id: JobId)
    requires Inv(s) && id in s.taken
    ensures id in s.jobs && s.jobs[id].physical && id !in s.attempts
  {
    assert LinkOk(s, id);
  }

  lemma AttemptIsPhysical(s: State, id: JobId)
    requires Inv(s) && id in s.attempts
    ensures IsPhysicalJob(s, id) && id !in s.taken
  {
    assert AttemptOk(s, id);
  }

  /** Any other row is not successful or has no manifest to offer. */
  lemma OthersOfferNothing(s: State, id: JobId)
    requires Inv(s) && id in s.jobs && id !in s.taken
    ensures s.jobs[id].status.Succeeded? ==> ParentManifest(s, id).None?
  {
    assert OtherOk(s, id);
  }

  lemma BeginChoosesAFinishedBackup(s: State, id: JobId, requested: Option<JobId>, listing: seq<JobId>)
    requires Inv(s) && Enabled(s, Begin(id, requested, listing))
    ensures var plan := PlanBackup(s, id, requested, listing).value;
            && ParentOk(s, id, s.jobs[id].dbName, plan.parent, plan.base, plan.level)
            && (plan.parent.Some? ==> plan.against == s.taken[plan.parent.value])
  {
    if s.jobs[id].backupType.IncrementalBackup? {
      var p := GetParentBackup(s, s.jobs[id].dbName, requested, listing).value;
      assert Matches(s.jobs[p], s.jobs[id].dbName);
      assert p in s.taken by {
        if p !in s.taken { OthersOfferNothing(s, p); }
      }
      assert LinkOk(s, p);
    }
  }

  lemma StepKeepsInv(s: State, e: Event)
    requires Inv(s) && Enabled(s, e) && Disciplined(s, e)
    ensures Inv(Next(s, e))
  {
    match e
    case Write(_, _) => Quiet(s, Next(s, e));
    case Submit(_, _, _, _, _, _) => KeepSubmit(s, e);
    case Start(id) => KeepStatus(s, id, Running);
    case Begin(_, _, _) => KeepBegin(s, e);
    case Dump(_, _, _) => KeepDump(s, e);
    case PackFails(_) => KeepPackFails(s, e);
    case Commit(_) => KeepCommit(s, e);
    case LogicalSuccess(_, _) => KeepLogical(s, e);
    case TakePitrBase(_, _, _, _, _) => KeepPitrBase(s, e);
    case MarkFailed(id) => KeepStatus(s, id, Failed); KeepAbandon(WithStatus(s, id, Failed), id);
    case Cancel(id) => KeepStatus(s, id, Cancelled);
    case RemoveFile(path) => KeepRemove(s, path);
  }

  /** What makes a row successful, and what makes it so no longer. */
  lemma RowSucceedsExactlyWhen(s: State, e: Event, id: JobId)
    requires Enabled(s, e)
    ensures id in Next(s, e).jobs && Next(s, e).jobs[id].status == Succeeded <==>
              || e == Commit(id) || (e.LogicalSuccess? && e.id == id) || (e.TakePitrBase? && e.id == id)
              || (id in s.jobs && s.jobs[id].status == Succeeded && e != Start(id) && e != MarkFailed(id) && e != Cancel(id))
  {
  }

  lemma Quiet(s: State, t: State)
    requires Inv(s) && t == s.(clusters := t.clusters)
    ensures Inv(t)
  {
    forall id | id in t.taken ensures LinkOk(t, id) { assert LinkOk(s, id); }
    forall id | id in t.attempts ensures AttemptOk(t, id) { assert AttemptOk(s, id); }
    forall id | id in t.jobs && id !in t.taken ensures OtherOk(t, id) { assert OtherOk(s, id); }
    forall i, j | i in t.jobs && j in t.jobs && i != j ensures Apart(t, i, j) {
      assert Apart(s, i, j);
    }
  }

  lemma KeepStatus(s: State, id: JobId, status: Status)
    requires Inv(s) && id in s.jobs
    requires !status.Succeeded?
    ensures Inv(WithStatus(s, id, status))
  {
    var t := WithStatus(s, id, status);
    forall j | j in t.taken ensures LinkOk(t, j) { StatusRow(s, id, status, j); }
    forall j | j in t.attempts ensures AttemptOk(t, j) { StatusAttempt(s, id, status, j); }
    forall j | j in t.jobs && j !in t.taken ensures OtherOk(t, j) { StatusRow(s, id, status, j); }
    forall i, j | i in t.jobs && j in t.jobs && i != j ensures Apart(t, i, j) {
      assert Apart(s, i, j);
    }
  }

  lemma StatusAttempt(s: State, id: JobId, status: Status, j: JobId)
    requires Inv(s) && id in s.jobs && j in s.attempts && !status.Succeeded?
    ensures AttemptOk(WithStatus(s, id, status), j)
  {
    assert AttemptOk(s, j);
  }

  lemma StatusRow(s: State, id: JobId, status: Status, j: JobId)
    requires Inv(s) && id in s.jobs && !status.Succeeded?
    ensures j in s.taken ==> LinkOk(WithStatus(s, id, status), j)
    ensures j in s.jobs && j !in s.taken ==> OtherOk(WithStatus(s, id, status), j)
  {
    if j in s.taken { assert LinkOk(s, j); }
    else if j in s.jobs { assert OtherOk(s, j); }
  }

  lemma KeepAbandon(s: State, id: JobId)
    requires Inv(s)
    ensures Inv(s.(attempts := s.attempts - {id}))
  {
    var t := s.(attempts := s.attempts - {id});
    forall j | j in t.taken ensures LinkOk(t, j) { assert LinkOk(s, j); }
    forall j | j in t.attempts ensures AttemptOk(t, j) { assert AttemptOk(s, j); }
    forall j | j in t.jobs && j !in t.taken ensures OtherOk(t, j) { assert OtherOk(s, j); }
    forall i, j | i in t.jobs && j in t.jobs && i != j ensures Apart(t, i, j) {
      AbandonPath(s, id, i);
      AbandonPath(s, id, j);
      assert Apart(s, i, j);
    }
  }

  /** A running attempt's row promises no path, so giving the attempt up frees its path. */
  lemma AbandonPath(s: State, id: JobId, j: JobId)
    requires Inv(s) && j in s.jobs
    ensures var t := s.(attempts := s.attempts - {id});
            PathOf(t, j) == PathOf(s, j) || PathOf(t, j) == None
  {
    if j == id && id in s.attempts {
      assert AttemptOk(s, id);
      assert OtherOk(s, id);
    }
  }

  lemma KeepRemove(s: State, path: Path)
    requires Inv(s)
    ensures Inv(s.(files := s.files - {path}))
  {
    var t := s.(files := s.files - {path});
    forall j | j in t.taken ensures LinkOk(t, j) { assert LinkOk(s, j); }
    forall j | j in t.attempts ensures AttemptOk(t, j) { assert AttemptOk(s, j); }
    forall j | j in t.jobs && j !in t.taken ensures OtherOk(t, j) { assert OtherOk(s, j); }
    forall i, j | i in t.jobs && j in t.jobs && i != j ensures Apart(t, i, j) {
      assert Apart(s, i, j);
    }
  }

  lemma SubmitRow(s: State, e: Event, j: JobId)
    requires Inv(s) && e.Submit? && Enabled(s, e)
    ensures j in s.taken ==> LinkOk(Next(s, e), j)
    ensures j in Next(s, e).jobs && j !in s.taken ==> OtherOk(Next(s, e), j)
  {
    if j in s.taken { assert LinkOk(s, j); }
    else if j in s.jobs { assert OtherOk(s, j); }
  }

  lemma KeepSubmit(s: State, e: Event)
    requires Inv(s) && e.Submit? && Enabled(s, e)
    ensures Inv(Next(s, e))
  {
    var t := Next(s, e);
    forall j | j in t.taken ensures LinkOk(t, j) { SubmitRow(s, e, j); }
    forall j | j in t.attempts ensures AttemptOk(t, j) { assert AttemptOk(s, j); }
    forall j | j in t.jobs && j !in t.taken ensures OtherOk(t, j) { SubmitRow(s, e, j); }
    forall i, j | i in t.jobs && j in t.jobs && i != j ensures Apart(t, i, j) {
      if i != e.id && j != e.id { assert Apart(s, i, j); }
    }
  }

  /** The plan is sound, so the manifest it caches is the one its parent already had. */
  ghost predicate SoundPlan(s: State, id: JobId, plan: Plan)
    requires id in s.jobs
  {
    && ParentOk(s, id, s.jobs[id].dbName, plan.parent, plan.base, plan.level)
    && (plan.parent.Some? ==> plan.against == s.taken[plan.parent.value])
  }

  lemma BeginRow(s: State, id: JobId, plan: Plan, j: JobId)
    requires Inv(s) && IsPhysicalJob(s, id) && id !in s.taken && SoundPlan(s, id, plan)
    ensures j in s.taken ==> LinkOk(AfterBegin(s, id, plan), j)
    ensures j in s.jobs && j !in s.taken ==> OtherOk(AfterBegin(s, id, plan), j)
  {
    if j in s.taken { assert LinkOk(s, j); }
    else if j in s.jobs { assert OtherOk(s, j); }
  }

  lemma BeginAttempt(s: State, id: JobId, plan: Plan, j: JobId)
    requires Inv(s) && IsPhysicalJob(s, id) && id !in s.taken && SoundPlan(s, id, plan)
    requires j in AfterBegin(s, id, plan).attempts
    ensures AttemptOk(AfterBegin(s, id, plan), j)
  {
    if j != id { assert AttemptOk(s, j); }
  }

  lemma BeginPath(s: State, e: Event, j: JobId)
    requires Inv(s) && e.Begin? && Enabled(s, e) && Disciplined(s, e) && j in s.jobs
    ensures PathOf(Next(s, e), j) == PathOf(s, j) || PathOf(Next(s, e), j) == None
  {
    assert OtherOk(s, e.id);
  }

  lemma KeepBegin(s: State, e: Event)
    requires Inv(s) && e.Begin? && Enabled(s, e) && Disciplined(s, e)
    ensures Inv(Next(s, e))
  {
    var t := Next(s, e);
    var plan := PlanBackup(s, e.id, e.requested, e.listing).value;
    BeginChoosesAFinishedBackup(s, e.id, e.requested, e.listing);
    if plan.parent.Some? { FinishedIsPhysical(s, plan.parent.value); }
    forall j | j in t.taken ensures LinkOk(t, j) { BeginRow(s, e.id, plan, j); }
    forall j | j in t.attempts ensures AttemptOk(t, j) { BeginAttempt(s, e.id, plan, j); }
    forall j | j in t.jobs && j !in t.taken ensures OtherOk(t, j) { BeginRow(s, e.id, plan, j); }
    forall i, j | i in t.jobs && j in t.jobs && i != j ensures Apart(t, i, j) {
      BeginPath(s, e, i);
      BeginPath(s, e, j);
      assert Apart(s, i, j);
    }
  }

  lemma DumpRow(s: State, e: Event, j: JobId)
    requires Inv(s) && e.Dump? && Enabled(s, e) && Disciplined(s, e)
    ensures j in s.taken ==> LinkOk(Next(s, e), j)
    ensures j in s.jobs && j !in s.taken ==> OtherOk(Next(s, e), j)
  {
    assert AttemptOk(s, e.id);
    if j in s.taken { assert LinkOk(s, j) && PathOf(s, j) != Some(e.path); }
    if j in s.jobs && j !in s.taken {
      assert OtherOk(s, j);
      if j in s.attempts { assert AttemptOk(s, j); } else { assert PathOf(s, j) != Some(e.path); }
    }
  }

  lemma DumpAttempt(s: State, e: Event, j: JobId)
    requires Inv(s) && e.Dump? && Enabled(s, e) && Disciplined(s, e) && j in s.attempts
    ensures AttemptOk(Next(s, e), j)
  {
    assert AttemptOk(s, j);
    if j != e.id { assert PathOf(s, j) != Some(e.path); }
  }

  lemma KeepDump(s: State, e: Event)
    requires Inv(s) && e.Dump? && Enabled(s, e) && Disciplined(s, e)
    ensures Inv(Next(s, e))
  {
    var t := Next(s, e);
    forall j | j in t.taken ensures LinkOk(t, j) { DumpRow(s, e, j); }
    forall j | j in t.attempts ensures AttemptOk(t, j) { DumpAttempt(s, e, j); }
    forall j | j in t.jobs && j !in t.taken ensures OtherOk(t, j) { DumpRow(s, e, j); }
    forall i, j | i in t.jobs && j in t.jobs && i != j ensures Apart(t, i, j) {
      if i != e.id { assert PathOf(t, i) == PathOf(s, i) && (j == e.id || Apart(s, i, j)); }
      if j != e.id { assert PathOf(t, j) == PathOf(s, j); }
    }
  }

  lemma PackFailsRow(s: State, e: Event, j: JobId)
    requires Inv(s) && e.PackFails? && Enabled(s, e)
    ensures j in s.taken ==> LinkOk(Next(s, e), j)
    ensures j in s.jobs && j !in s.taken ==> OtherOk(Next(s, e), j)
  {
    AttemptIsPhysical(s, e.id);
    if j in s.taken { assert LinkOk(s, j); }
    else if j in s.jobs { assert OtherOk(s, j); }
  }

  lemma KeepPackFails(s: State, e: Event)
    requires Inv(s) && e.PackFails? && Enabled(s, e)
    ensures Inv(Next(s, e))
  {
    var t := Next(s, e);
    AttemptIsPhysical(s, e.id);
    forall j | j in t.taken ensures LinkOk(t, j) { PackFailsRow(s, e, j); }
    forall j | j in t.attempts ensures AttemptOk(t, j) { assert AttemptOk(s, j); }
    forall j | j in t.jobs && j !in t.taken ensures OtherOk(t, j) { PackFailsRow(s, e, j); }
    forall i, j | i in t.jobs && j in t.jobs && i != j ensures Apart(t, i, j) {
      assert Apart(s, i, j);
    }
  }

  lemma CommitRow(s: State, e: Event, j: JobId)
    requires Inv(s) && e.Commit? && Enabled(s, e)
    ensures j in s.taken || j == e.id ==> LinkOk(Next(s, e), j)
    ensures j in s.jobs && j !in s.taken && j != e.id ==> OtherOk(Next(s, e), j)
  {
    assert AttemptOk(s, e.id);
    if j in s.taken { assert LinkOk(s, j); }
    else if j in s.jobs { assert OtherOk(s, j); }
  }

  lemma CommitPath(s: State, e: Event, j: JobId)
    requires Inv(s) && e.Commit? && Enabled(s, e) && j in s.jobs
    ensures PathOf(Next(s, e), j) == PathOf(s, j)
  {
  }

  lemma CommitAttempt(s: State, e: Event, j: JobId)
    requires Inv(s) && e.Commit? && Enabled(s, e) && j in s.attempts && j != e.id
    ensures AttemptOk(Next(s, e), j)
  {
    assert AttemptOk(s, e.id) && AttemptOk(s, j);
  }

  lemma KeepCommit(s: State, e: Event)
    requires Inv(s) && e.Commit? && Enabled(s, e)
    ensures Inv(Next(s, e))
  {
    var t := Next(s, e);
    forall j | j in t.taken ensures LinkOk(t, j) { CommitRow(s, e, j); }
    forall j | j in t.attempts ensures AttemptOk(t, j) { CommitAttempt(s, e, j); }
    forall j | j in t.jobs && j !in t.taken ensures OtherOk(t, j) { CommitRow(s, e, j); }
    forall i, j | i in t.jobs && j in t.jobs && i != j ensures Apart(t, i, j) {
      CommitPath(s, e, i);
      CommitPath(s, e, j);
      assert Apart(s, i, j);
    }
  }

  lemma LogicalRow(s: State, e: Event, j: JobId)
    requires Inv(s) && e.LogicalSuccess? && Enabled(s, e) && Disciplined(s, e)
    ensures j in s.taken ==> LinkOk(Next(s, e), j)
    ensures j in s.jobs && j !in s.taken ==> OtherOk(Next(s, e), j)
  {
    if e.id in s.taken { FinishedIsPhysical(s, e.id); }
    if j in s.taken { assert LinkOk(s, j) && PathOf(s, j) != Some(e.path); }
    else if j in s.jobs { assert OtherOk(s, j); }
  }

  lemma LogicalAttempt(s: State, e: Event, j: JobId)
    requires Inv(s) && e.LogicalSuccess? && Enabled(s, e) && Disciplined(s, e) && j in s.attempts
    ensures AttemptOk(Next(s, e), j)
  {
    AttemptIsPhysical(s, j);
    assert AttemptOk(s, j) && PathOf(s, j) != Some(e.path);
  }

  lemma KeepLogical(s: State, e: Event)
    requires Inv(s) && e.LogicalSuccess? && Enabled(s, e) && Disciplined(s, e)
    ensures Inv(Next(s, e))
  {
    var t := Next(s, e);
    if e.id in s.attempts { AttemptIsPhysical(s, e.id); }
    forall j | j in t.taken ensures LinkOk(t, j) { LogicalRow(s, e, j); }
    forall j | j in t.attempts ensures AttemptOk(t, j) { LogicalAttempt(s, e, j); }
    forall j | j in t.jobs && j !in t.taken ensures OtherOk(t, j) { LogicalRow(s, e, j); }
    forall i, j | i in t.jobs && j in t.jobs && i != j ensures Apart(t, i, j) {
      if i != e.id { assert PathOf(t, i) == PathOf(s, i) && (j == e.id || Apart(s, i, j)); }
      if j != e.id { assert PathOf(t, j) == PathOf(s, j); }
    }
  }

  lemma PitrBaseLink(s: State, e: Event, j: JobId)
    requires Inv(s) && e.TakePitrBase? && Enabled(s, e) && Disciplined(s, e)
    ensures j in Next(s, e).taken ==> LinkOk(Next(s, e), j)
  {
    if j == e.id {
      if e.id in s.attempts { AttemptIsPhysical(s, e.id); }
    } else if j in s.taken {
      assert LinkOk(s, j) && PathOf(s, j) != Some(e.path);
    }
  }

  lemma PitrBaseOther(s: State, e: Event, j: JobId)
    requires Inv(s) && e.TakePitrBase? && Enabled(s, e) && Disciplined(s, e)
    ensures j in s.jobs && j !in s.taken ==> OtherOk(Next(s, e), j)
  {
    if j in s.jobs && j !in s.taken {
      assert OtherOk(s, j);
      if j in s.attempts { AttemptIsPhysical(s, j); } else { assert PathOf(s, j) != Some(e.path); }
    }
  }

  lemma PitrBaseAttempt(s: State, e: Event, j: JobId)
    requires Inv(s) && e.TakePitrBase? && Enabled(s, e) && Disciplined(s, e) && j in s.attempts
    ensures AttemptOk(Next(s, e), j)
  {
    AttemptIsPhysical(s, j);
    assert AttemptOk(s, j) && PathOf(s, j) != Some(e.path);
  }

  lemma KeepPitrBase(s: State, e: Event)
    requires Inv(s) && e.TakePitrBase? && Enabled(s, e) && Disciplined(s, e)
    ensures Inv(Next(s, e))
  {
    var t := Next(s, e);
    if e.id in s.taken { FinishedIsPhysical(s, e.id); }
    forall j | j in t.taken ensures LinkOk(t, j) { PitrBaseLink(s, e, j); }
    forall j | j in t.attempts ensures AttemptOk(t, j) { PitrBaseAttempt(s, e, j); }
    forall j | j in t.jobs && j !in t.taken ensures OtherOk(t, j) { PitrBaseOther(s, e, j); }
    forall i, j | i in t.jobs && j in t.jobs && i != j ensures Apart(t, i, j) {
      if i != e.id { assert PathOf(t, i) == PathOf(s, i) && (j == e.id || Apart(s, i, j)); }
      if j != e.id { assert PathOf(t, j) == PathOf(s, j); }
    }
  }

  /** Every state of every run satisfies the invariant. */
  lemma {:induction false} RunsKeepInv(states: seq<State>, events: seq<Event>, i: nat)
    requires Run(states, events) && i < |states|
    ensures Inv(states[i])
  {
    if i > 0 {
      RunsKeepInv(states, events, i - 1);
      StepKeepsInv(states[i - 1], events[i - 1]);
    }
  }
}
