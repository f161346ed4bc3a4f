/** How often a job is executed: the queues' bookkeeping of attempts, over all runs. */
module PipelineAttempts {
  import opened Wrappers
  import opened JobRecords
  import opened JobPipeline

  /** Failed attempts are counted up to the limit, and reaching it is what gives the job up. */
  predicate WithinLimit(q: QueueJob, limit: nat) {
    q.attemptsMade <= limit && (q.state.Exhausted? <==> q.attemptsMade == limit)
  }

  /** Executions not counted as failed or stopped: the present one, or the one that completed. */
  function Standing(q: QueueJob): nat {
    if q.state.Active? || q.state.Completed? then 1 else 0
  }

  function Count(events: seq<Event>, n: nat, e: Event): nat
    requires n <= |events|
  {
    multiset(events[..n])[e]
  }

  lemma CountStep(events: seq<Event>, n: nat, e: Event)
    requires n < |events|
    ensures Count(events, n + 1, e) == Count(events, n, e) + if events[n] == e then 1 else 0
  {
    assert events[..n + 1] == events[..n] + [events[n]];
  }

  /** Of a queue job taken `picks` times and stopped `stops` times: every execution is the present one, has completed,
      was stopped, or is one of the failed attempts. */
  predicate Accounts(q: QueueJob, limit: nat, picks: nat, stops: nat) {
    WithinLimit(q, limit) && picks == q.attemptsMade + stops + Standing(q)
  }

  lemma RunSteps(states: seq<State>, events: seq<Event>, k: nat)
    requires Run(states, events) && k < |events|
    ensures Enabled(states[k], events[k]) && states[k + 1] == Next(states[k], events[k])
  {
  }

  lemma {:induction false} LimitsStay(states: seq<State>, events: seq<Event>, n: nat)
    requires Run(states, events) && n < |states|
    ensures states[n].backupAttempts == states[0].backupAttempts && states[n].storageAttempts == states[0].storageAttempts
  {
    if n > 0 {
      LimitsStay(states, events, n - 1);
      assert states[n] == Next(states[n - 1], events[n - 1]);
    }
  }

  // ---------- The backup queue ----------

  ghost predicate BackupAccounts(s: State, id: JobId, picks: nat, stops: nat) {
    if id !in s.items || s.items[id].intake.Adding? then
      picks == 0 && stops == 0 && (id in s.items ==> s.items[id].queue.None?)
    else if s.items[id].queue.Some? then Accounts(s.items[id].queue.value, s.backupAttempts, picks, stops)
    else picks <= s.backupAttempts + stops
  }

  lemma BackupStepAccounts(s: State, e: Event, t: State, id: JobId, picks: nat, stops: nat)
    requires Enabled(s, e) && t == Next(s, e) && s.backupAttempts > 0 && BackupAccounts(s, id, picks, stops)
    ensures BackupAccounts(t, id, picks + (if e == Pick(id) then 1 else 0), stops + (if e == Crash(id) then 1 else 0))
  {
    StepTouchesOneItem(s, e, id);
    if id == e.id && id in s.items && StorageEvent(e) { StorageKeepsStatus(s, e); }
  }

  ghost predicate BackupTallies(s: State, events: seq<Event>, k: nat, id: JobId)
    requires k <= |events|
  {
    BackupAccounts(s, id, Count(events, k, Pick(id)), Count(events, k, Crash(id)))
  }

  lemma BackupStepTallies(states: seq<State>, events: seq<Event>, k: nat, id: JobId)
    requires Run(states, events) && k < |events| && states[0].backupAttempts > 0 && BackupTallies(states[k], events, k, id)
    ensures BackupTallies(states[k + 1], events, k + 1, id)
  {
    LimitsStay(states, events, k);
    RunSteps(states, events, k);
    CountStep(events, k, Pick(id));
    CountStep(events, k, Crash(id));
    BackupStepAccounts(states[k], events[k], states[k + 1], id, Count(events, k, Pick(id)), Count(events, k, Crash(id)));
  }

  lemma {:induction false} BackupRunTallies(states: seq<State>, events: seq<Event>, n: nat, id: JobId)
    requires |states| == |events| + 1 && n < |states| && BackupTallies(states[0], events, 0, id)
    requires forall k: nat {:trigger BackupTallies(states[k], events, k, id)} ::
               k < |events| && BackupTallies(states[k], events, k, id) ==> BackupTallies(states[k + 1], events, k + 1, id)
    ensures BackupTallies(states[n], events, n, id)
  {
    if n > 0 {
      BackupRunTallies(states, events, n - 1, id);
    }
  }

  lemma BackupRunAccounts(states: seq<State>, events: seq<Event>, n: nat, id: JobId)
    requires Run(states, events) && n < |states| && states[0].backupAttempts > 0
    ensures BackupTallies(states[n], events, n, id)
  {
    forall k: nat | k < |events| && BackupTallies(states[k], events, k, id) ensures BackupTallies(states[k + 1], events, k + 1, id) {
      BackupStepTallies(states, events, k, id);
    }
    BackupRunTallies(states, events, n, id);
  }

  /** Over all runs: a backup job is given up exactly when its failed attempts reach the limit, so a job at its limit is
      not taken again; and no job is executed more often than the limit and the stops of workers that held it. */
  lemma BackupAttemptsAreBounded(states: seq<State>, events: seq<Event>, n: nat, id: JobId)
    requires Run(states, events) && n < |states| && states[0].backupAttempts > 0
    ensures Count(events, n, Pick(id)) <= states[0].backupAttempts + Count(events, n, Crash(id))
    ensures id in states[n].items && states[n].items[id].queue.Some? ==>
              var q := states[n].items[id].queue.value;
              && q.attemptsMade <= states[0].backupAttempts
              && (q.state == Exhausted <==> q.attemptsMade == states[0].backupAttempts)
              && (q.attemptsMade == states[0].backupAttempts ==> !Enabled(states[n], Pick(id)))
              && Count(events, n, Pick(id)) == q.attemptsMade + Count(events, n, Crash(id)) + Standing(q)
  {
    BackupRunAccounts(states, events, n, id);
    LimitsStay(states, events, n);
  }

  // ---------- The storage queue ----------

  ghost predicate StorageAccounts(s: State, id: JobId, picks: nat, stops: nat) {
    if id !in s.items || s.items[id].storage.None? then picks == 0 && stops == 0 && (id in s.items ==> s.items[id].storageAt.SIdle?)
    else
      var q := s.items[id].storage.value.queue;
      Accounts(q, s.storageAttempts, picks, stops) && (q.state.Active? <==> !s.items[id].storageAt.SIdle?)
  }

  lemma StorageStepAccounts(s: State, e: Event, t: State, id: JobId, picks: nat, stops: nat)
    requires Enabled(s, e) && t == Next(s, e) && s.storageAttempts > 0 && StorageAccounts(s, id, picks, stops)
    ensures StorageAccounts(t, id, picks + (if e == StoragePick(id) then 1 else 0), stops + (if e == StorageCrash(id) then 1 else 0))
  {
    StepTouchesOneItem(s, e, id);
    if id == e.id && id in s.items && !StorageEvent(e) { BackupStepKeepsQueued(s, e); }
  }

  /** The backup worker adds an upload job once and never touches one that is queued. */
  lemma BackupStepKeepsQueued(s: State, e: Event)
    requires Enabled(s, e) && !e.CreateRecord? && !StorageEvent(e)
    ensures ItemNext(s, e).storageAt == s.items[e.id].storageAt
    ensures s.items[e.id].storage.Some? ==> ItemNext(s, e).storage == s.items[e.id].storage
    ensures s.items[e.id].storage.None? && ItemNext(s, e).storage.Some? ==> ItemNext(s, e).storage.value.queue == QueueJob(Waiting, 0)
  {
  }

  ghost predicate StorageTallies(s: State, events: seq<Event>, k: nat, id: JobId)
    requires k <= |events|
  {
    StorageAccounts(s, id, Count(events, k, StoragePick(id)), Count(events, k, StorageCrash(id)))
  }

  lemma StorageStepTallies(states: seq<State>, events: seq<Event>, k: nat, id: JobId)
    requires Run(states, events) && k < |events| && states[0].storageAttempts > 0 && StorageTallies(states[k], events, k, id)
    ensures StorageTallies(states[k + 1], events, k + 1, id)
  {
    LimitsStay(states, events, k);
    RunSteps(states, events, k);
    CountStep(events, k, StoragePick(id));
    CountStep(events, k, StorageCrash(id));
    StorageStepAccounts(states[k], events[k], states[k + 1], id, Count(events, k, StoragePick(id)), Count(events, k, StorageCrash(id)));
  }

  lemma {:induction false} StorageRunTallies(states: seq<State>, events: seq<Event>, n: nat, id: JobId)
    requires |states| == |events| + 1 && n < |states| && StorageTallies(states[0], events, 0, id)
    requires forall k: nat {:trigger StorageTallies(states[k], events, k, id)} ::
               k < |events| && StorageTallies(states[k], events, k, id) ==> StorageTallies(states[k + 1], events, k + 1, id)
    ensures StorageTallies(states[n], events, n, id)
  {
    if n > 0 {
      StorageRunTallies(states, events, n - 1, id);
    }
  }

  lemma StorageRunAccounts(states: seq<State>, events: seq<Event>, n: nat, id: JobId)
    requires Run(states, events) && n < |states| && states[0].storageAttempts > 0
    ensures StorageTallies(states[n], events, n, id)
  {
    forall k: nat | k < |events| && StorageTallies(states[k], events, k, id) ensures StorageTallies(states[k + 1], events, k + 1, id) {
      StorageStepTallies(states, events, k, id);
    }
    StorageRunTallies(states, events, n, id);
  }

  /** The same for upload jobs, which no cancellation removes. */
  lemma UploadAttemptsAreBounded(states: seq<State>, events: seq<Event>, n: nat, id: JobId)
    requires Run(states, events) && n < |states| && states[0].storageAttempts > 0
    ensures Count(events, n, StoragePick(id)) <= states[0].storageAttempts + Count(events, n, StorageCrash(id))
    ensures id in states[n].items && states[n].items[id].storage.Some? ==>
              var q := states[n].items[id].storage.value.queue;
              && q.attemptsMade <= states[0].storageAttempts
              && (q.state == Exhausted <==> q.attemptsMade == states[0].storageAttempts)
              && (q.attemptsMade == states[0].storageAttempts ==> !Enabled(states[n], StoragePick(id)))
              && Count(events, n, StoragePick(id)) == q.attemptsMade + Count(events, n, StorageCrash(id)) + Standing(q)
  {
    StorageRunAccounts(states, events, n, id);
    LimitsStay(states, events, n);
  }

  // ---------- A job that keeps failing ----------

  /** A failed attempt with attempts left waits to be taken again; the last one does not. */
  lemma RetriedExactlyWhen(s: State, id: JobId, notified: bool)
    requires Enabled(s, Fail(id, notified))
    ensures Enabled(Next(s, Fail(id, notified)), Pick(id)) <==> s.items[id].queue.value.attemptsMade + 1 < s.backupAttempts
  {
  }
}
