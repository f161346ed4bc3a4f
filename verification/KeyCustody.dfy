/**
 Which key ends up under which backup id: the backup use case parks the key under "pending" while the request
 runs, and files it under the backup id once the job is not known to have failed.
 */
module KeyCustody {
  import opened Wrappers
  import opened Keystore
  import RestoreUseCase

  const PENDING: BackupId := "pending"
  const MAX_POLLS := 60

  // ---------- One request ----------

  /** `key` is the caller's key; `generated` is what `generateKey` would return. */
  datatype Request = Request(encrypt: bool, key: Option<string>, generated: string, noStoreKey: bool, async: bool)

  /** A status answer; an absent status or error is "". */
  datatype Status = Status(status: string, error: string)

  /** What the gateway answers: the POST (`None` if it throws), and each status poll (`None` if it throws or is empty). */
  datatype Posted = Posted(success: bool, backupId: BackupId, queued: bool, status: Status)
  datatype Gateway = Gateway(post: Option<Posted>, polls: seq<Option<Status>>)

  datatype Outcome =
    | KeyRefused
    | RequestFailed
    | JobFailed
    | Reported(id: BackupId)

  predicate ValidKey(k: string) {
    |k| == 64 && forall i :: 0 <= i < |k| ==> '0' <= k[i] <= '9' || 'a' <= k[i] <= 'f' || 'A' <= k[i] <= 'F'
  }

  predicate CallerKey(q: Request) {
    q.key.Some? && q.key.value != ""
  }

  function UsedKey(q: Request): string {
    if CallerKey(q) then q.key.value else q.generated
  }

  /** The key is to be kept in the keystore. */
  predicate Keeps(q: Request) {
    q.encrypt && !q.noStoreKey
  }

  predicate Terminal(p: Option<Status>) {
    p.Some? && p.value.status != "" && p.value.status != "running" && p.value.status != "queued"
  }

  /** The first terminal status among the answered polls, if any. */
  function FirstTerminal(polls: seq<Option<Status>>): Option<Status> {
    if |polls| == 0 then None
    else if Terminal(polls[0]) then polls[0]
    else FirstTerminal(polls[1..])
  }

  /** The job data the use case goes by: a terminal poll within the limit, otherwise the POST's own answer. */
  function JobData(q: Request, g: Gateway): Status
    requires g.post.Some?
  {
    var seen := FirstTerminal(if |g.polls| > MAX_POLLS then g.polls[..MAX_POLLS] else g.polls);
    if g.post.value.queued && !q.async && seen.Some? then seen.value else g.post.value.status
  }

  function OutcomeOf(q: Request, g: Gateway): Outcome {
    if q.encrypt && CallerKey(q) && !ValidKey(q.key.value) then KeyRefused
    else if g.post.None? || !g.post.value.success then RequestFailed
    else if JobData(q, g).status == "failed" || JobData(q, g).error != "" then JobFailed
    else Reported(g.post.value.backupId)
  }

  // ---------- The effect on the keys ----------

  type Keys = map<BackupId, string>

  /** Backup id to key, as the keystore answers. */
  function KeysOf(view: map<BackupId, KeyEntry>): Keys {
    map id | id in view :: view[id].key
  }

  /** The custody rules, independent of the order of calls: "pending" holds a key only after a request whose
      POST failed; a reported job's id holds the key it used; nothing else changes. */
  function AfterRequest(keys: Keys, q: Request, g: Gateway): Keys {
    if !Keeps(q) then keys
    else
      match OutcomeOf(q, g)
      case KeyRefused => keys
      case RequestFailed => keys[PENDING := UsedKey(q)]
      case JobFailed => keys - {PENDING}
      case Reported(id) => keys[id := UsedKey(q)] - {PENDING}
  }

  /** The part of those rules that applies once the key is parked under "pending". */
  function AfterAnswer(keys: Keys, q: Request, g: Gateway): Keys {
    if !Keeps(q) then keys
    else
      match OutcomeOf(q, g)
      case KeyRefused => keys
      case RequestFailed => keys
      case JobFailed => keys - {PENDING}
      case Reported(id) => keys[id := UsedKey(q)] - {PENDING}
  }

  lemma ParkThenAnswer(keys: Keys, q: Request, g: Gateway)
    requires OutcomeOf(q, g) != KeyRefused
    ensures AfterAnswer(if Keeps(q) then keys[PENDING := UsedKey(q)] else keys, q, g) == AfterRequest(keys, q, g)
  {
  }

  /** `clock` supplies note and key id of new entries. */
  function Entry(id: BackupId, key: string, clock: string): KeyEntry {
    KeyEntry(id, key, clock, "key_" + clock)
  }

  lemma KeysAfterAdd(before: seq<KeyEntry>, id: BackupId, key: string, clock: string)
    requires Unique(before)
    ensures KeysOf(View(Put(before, Entry(id, key, clock)))) == KeysOf(View(before))[id := key]
  {
    PutIsUpdate(before, Entry(id, key, clock));
  }

  lemma KeysAfterRemoval(view: map<BackupId, KeyEntry>, id: BackupId)
    ensures KeysOf(view - {id}) == KeysOf(view) - {id}
  {
  }

  method PollStatus(posted: Status, polls: seq<Option<Status>>) returns (r: Status)
    ensures var seen := FirstTerminal(if |polls| > MAX_POLLS then polls[..MAX_POLLS] else polls);
            r == if seen.Some? then seen.value else posted
  {
    r := posted;
    ghost var asked := if |polls| > MAX_POLLS then polls[..MAX_POLLS] else polls;
    var attempt := 0;
    while attempt < MAX_POLLS && attempt < |polls|
      invariant attempt <= |asked| && r == posted
      invariant FirstTerminal(asked[attempt..]) == FirstTerminal(asked)
    {
      assert asked[attempt] == polls[attempt];
      if Terminal(polls[attempt]) {
        return polls[attempt].value;
      }
      assert asked[attempt..][1..] == asked[attempt + 1..];
      attempt := attempt + 1;
    }
    assert asked[attempt..] == [];
  }

  class BackupUseCase {
    const keystore: KeyManager

    constructor (keystore: KeyManager)
      ensures this.keystore == keystore
    {
      this.keystore := keystore;
    }

    method StoreKey(id: BackupId, key: string, clock: string, iv: Blob, random: string)
      requires keystore.Valid() && keystore.Random(random)
      modifies keystore, keystore.disk
      ensures keystore.Valid() && keystore.Random(random)
      ensures KeysOf(View(keystore.Keys())) == KeysOf(View(old(keystore.Keys())))[id := key]
    {
      KeysAfterAdd(keystore.Keys(), id, key, clock);
      keystore.AddKey(Entry(id, key, clock), iv, random);
    }

    method DropKey(id: BackupId, iv: Blob, random: string)
      requires keystore.Valid() && keystore.Random(random)
      modifies keystore, keystore.disk
      ensures keystore.Valid() && keystore.Random(random)
      ensures KeysOf(View(keystore.Keys())) == KeysOf(View(old(keystore.Keys()))) - {id}
    {
      KeysAfterRemoval(View(keystore.Keys()), id);
      var _ := keystore.DeleteKey(id, iv, random);
    }

    /** From "pending" to the backup's own id. */
    method FileKey(id: BackupId, key: string, clock: string, iv: Blob, random: string)
      requires keystore.Valid() && keystore.Random(random)
      modifies keystore, keystore.disk
      ensures keystore.Valid() && keystore.Random(random)
      ensures KeysOf(View(keystore.Keys())) == KeysOf(View(old(keystore.Keys())))[id := key] - {PENDING}
    {
      StoreKey(id, key, clock, iv, random);
      DropKey(PENDING, iv, random);
    }

    /** The answer of the POST or, for a queued job that is waited for, of the polls. */
    method AwaitJob(q: Request, g: Gateway) returns (jobData: Status)
      requires g.post.Some?
      ensures jobData == JobData(q, g)
    {
      jobData := g.post.value.status;
      if g.post.value.queued && !q.async {
        jobData := PollStatus(jobData, g.polls);
      }
    }

    /** Everything after the key has been parked: the request, the polling, and the filing of the key. */
    method Dispatch(q: Request, encryptionKey: Option<string>, g: Gateway, clock: string, iv: Blob, random: string)
      returns (r: Outcome)
      requires keystore.Valid() && keystore.Random(random)
      requires encryptionKey == if q.encrypt then Some(UsedKey(q)) else None
      requires !(q.encrypt && CallerKey(q) && !ValidKey(q.key.value))
      modifies keystore, keystore.disk
      ensures keystore.Valid() && keystore.Random(random)
      ensures r == OutcomeOf(q, g)
      ensures KeysOf(View(keystore.Keys())) == AfterAnswer(KeysOf(View(old(keystore.Keys()))), q, g)
    {
      if g.post.None? || !g.post.value.success {
        return RequestFailed;
      }
      var backupId := g.post.value.backupId;
      var jobData := AwaitJob(q, g);
      if jobData.status == "failed" || jobData.error != "" {
        if q.encrypt && !q.noStoreKey {
          DropKey(PENDING, iv, random);
        }
        return JobFailed;
      }
      if q.encrypt && !q.noStoreKey && encryptionKey.Some? {
        FileKey(backupId, encryptionKey.value, clock, iv, random);
      }
      r := Reported(backupId);
    }

    method Execute(q: Request, g: Gateway, clock: string, iv: Blob, random: string) returns (r: Outcome)
      requires keystore.Valid() && keystore.Random(random)
      modifies keystore, keystore.disk
      ensures keystore.Valid() && keystore.Random(random)
      ensures r == OutcomeOf(q, g)
      ensures KeysOf(View(keystore.Keys())) == AfterRequest(KeysOf(View(old(keystore.Keys()))), q, g)
    {
      var encryptionKey: Option<string> := None;
      if q.encrypt {
        if CallerKey(q) {
          if !ValidKey(q.key.value) {
            return KeyRefused;
          }
          encryptionKey := q.key;
        } else {
          encryptionKey := Some(q.generated);
        }
        if !q.noStoreKey {
          StoreKey(PENDING, encryptionKey.value, clock, iv, random);
        }
      }
      ParkThenAnswer(KeysOf(View(old(keystore.Keys()))), q, g);
      r := Dispatch(q, encryptionKey, g, clock, iv, random);
    }
  }

  // ---------- Sequences of requests ----------

  datatype Step = Backup(q: Request, g: Gateway) | Delete(id: BackupId)

  function After(keys: Keys, s: Step): Keys {
    match s
    case Backup(q, g) => AfterRequest(keys, q, g)
    case Delete(id) => keys - {id}
  }

  function AfterAll(keys: Keys, steps: seq<Step>): Keys
    decreases |steps|
  {
    if |steps| == 0 then keys else AfterAll(After(keys, steps[0]), steps[1..])
  }

  /** The step reports a backup under `id` with a kept key, or deletes that id's key. */
  predicate Touches(s: Step, id: BackupId) {
    match s
    case Backup(q, g) => Keeps(q) && (OutcomeOf(q, g) == Reported(id) || (id == PENDING && OutcomeOf(q, g) != KeyRefused))
    case Delete(d) => d == id
  }

  /** A step that does not touch an id leaves its entry, or its absence, alone. */
  lemma OthersAreUntouched(keys: Keys, s: Step, id: BackupId)
    requires !Touches(s, id)
    ensures id in After(keys, s) <==> id in keys
    ensures id in keys ==> After(keys, s)[id] == keys[id]
  {
  }

  lemma {:induction false} UntouchedOverAll(keys: Keys, steps: seq<Step>, id: BackupId)
    requires forall i :: 0 <= i < |steps| ==> !Touches(steps[i], id)
    ensures id in AfterAll(keys, steps) <==> id in keys
    ensures id in keys ==> AfterAll(keys, steps)[id] == keys[id]
    decreases |steps|
  {
    if |steps| > 0 {
      OthersAreUntouched(keys, steps[0], id);
      UntouchedOverAll(After(keys, steps[0]), steps[1..], id);
    }
  }

  /** Every encrypted backup that was reported, also on a polling timeout, keeps exactly the key it used under
      its id for as long as no later step reports the same id again or deletes it. */
  lemma ReportedBackupsKeepTheirKey(keys: Keys, q: Request, g: Gateway, later: seq<Step>, id: BackupId)
    requires Keeps(q) && OutcomeOf(q, g) == Reported(id) && id != PENDING
    requires forall i :: 0 <= i < |later| ==> !Touches(later[i], id)
    ensures var after := AfterAll(AfterRequest(keys, q, g), later); id in after && after[id] == UsedKey(q)
  {
    UntouchedOverAll(AfterRequest(keys, q, g), later, id);
  }

  /** The restore's lookup then finds that key when the caller passes none. */
  lemma RestoreFindsTheKey(keys: Keys, q: Request, g: Gateway, later: seq<Step>, id: BackupId, restore: RestoreUseCase.Request)
    requires Keeps(q) && OutcomeOf(q, g) == Reported(id) && id != PENDING && UsedKey(q) != ""
    requires forall i :: 0 <= i < |later| ==> !Touches(later[i], id)
    requires restore.byId && restore.key.None?
    requires var after := AfterAll(AfterRequest(keys, q, g), later);
             restore.keystore == if id in after then Some(after[id]) else None
    ensures RestoreUseCase.ChosenKey(restore) == Some(UsedKey(q))
  {
    ReportedBackupsKeepTheirKey(keys, q, g, later, id);
  }

  // ---------- Which answer decides ----------

  /** A poll that threw, was empty, or found the job still waiting or at work. */
  predicate Undecided(p: Option<Status>) {
    p == None || p.value.status == "" || p.value.status == "running" || p.value.status == "queued"
  }

  /** An answer that tells of a failure. */
  predicate TellsFailure(status: Status) {
    status.status == "failed" || status.error != ""
  }

  /** The POST took the request, whose key, if it brought one to encrypt with, is one of 64 hexadecimal digits. */
  predicate TakenOn(q: Request, g: Gateway) {
    && g.post.Some? && g.post.value.success
    && (q.encrypt && q.key.Some? && q.key.value != "" ==>
          |q.key.value| == 64 && forall i :: 0 <= i < 64 ==> var ch := q.key.value[i]; '0' <= ch <= '9' || 'a' <= ch <= 'f' || 'A' <= ch <= 'F')
  }

  /** By that answer the use case fails or reports the backup, and settles the keys: whatever was parked is gone, and a
      kept key, the caller's if there is one, is filed under a reported id. */
  predicate DecidedBy(keys: Keys, q: Request, g: Gateway, status: Status)
    requires g.post.Some?
  {
    var id := g.post.value.backupId;
    var kept := q.encrypt && !q.noStoreKey;
    var used := if q.key.Some? && q.key.value != "" then q.key.value else q.generated;
    && OutcomeOf(q, g) == (if TellsFailure(status) then JobFailed else Reported(id))
    && AfterRequest(keys, q, g) ==
       if !kept then keys else if TellsFailure(status) then keys - {PENDING} else keys[id := used] - {PENDING}
  }

  /** The first poll within the limit that is not undecided decides over a queued job that is waited for: a "failed"
      one makes the request fail, whatever a later one says. */
  lemma FirstDecidedPollDecides(keys: Keys, q: Request, g: Gateway, n: nat)
    requires TakenOn(q, g) && g.post.value.queued && !q.async
    requires n < |g.polls| && n < 60 && !Undecided(g.polls[n])
    requires forall i :: 0 <= i < n ==> Undecided(g.polls[i])
    ensures g.polls[n].Some? && DecidedBy(keys, q, g, g.polls[n].value)
  {
    FirstTerminalIs(if |g.polls| > MAX_POLLS then g.polls[..MAX_POLLS] else g.polls, n);
  }

  lemma {:induction false} FirstTerminalIs(polls: seq<Option<Status>>, n: nat)
    requires n < |polls| && !Undecided(polls[n])
    requires forall i :: 0 <= i < n ==> Undecided(polls[i])
    ensures FirstTerminal(polls) == polls[n]
    decreases n
  {
    if n > 0 {
      FirstTerminalIs(polls[1..], n - 1);
    }
  }

  /** If there is none, or the job is not queued or not waited for, the POST's own answer decides. */
  lemma OtherwiseThePostDecides(keys: Keys, q: Request, g: Gateway)
    requires TakenOn(q, g)
    requires g.post.value.queued && !q.async ==> forall i :: 0 <= i < |g.polls| && i < 60 ==> Undecided(g.polls[i])
    ensures DecidedBy(keys, q, g, g.post.value.status)
  {
    if g.post.value.queued && !q.async {
      NoTerminal(if |g.polls| > MAX_POLLS then g.polls[..MAX_POLLS] else g.polls);
    }
  }

  /** Anything else is refused for its key, which changes nothing, or has failed to be posted, which leaves a kept key parked. */
  lemma RefusedExactlyWhenNotTakenOn(keys: Keys, q: Request, g: Gateway)
    ensures OutcomeOf(q, g).KeyRefused? || OutcomeOf(q, g).RequestFailed? <==> !TakenOn(q, g)
    ensures OutcomeOf(q, g).KeyRefused? ==> AfterRequest(keys, q, g) == keys
    ensures OutcomeOf(q, g).RequestFailed? ==>
              && (g.post.None? || !g.post.value.success)
              && AfterRequest(keys, q, g) ==
                 if !q.encrypt || q.noStoreKey then keys
                 else keys[PENDING := if q.key.Some? && q.key.value != "" then q.key.value else q.generated]
  {
  }

  /** So a timeout counts as a report. */
  lemma TimeoutIsReported(q: Request, g: Gateway)
    requires TakenOn(q, g) && g.post.value.status == Status("queued", "")
    requires forall i :: 0 <= i < |g.polls| && i < 60 ==> Undecided(g.polls[i])
    ensures OutcomeOf(q, g) == Reported(g.post.value.backupId)
  {
    OtherwiseThePostDecides(map[], q, g);
  }

  lemma {:induction false} NoTerminal(polls: seq<Option<Status>>)
    requires forall i :: 0 <= i < |polls| ==> Undecided(polls[i])
    ensures FirstTerminal(polls) == None
    decreases |polls|
  {
    if |polls| > 0 {
      NoTerminal(polls[1..]);
    }
  }

  /** Step k is the last that keeps a key or deletes "pending": "pending" is then left behind if and only if that step is a
      request whose POST failed, because it threw or because it was answered without success; and it holds that
      request's key. */
  lemma {:induction false} PendingIsLeftExactlyWhen(keys: Keys, steps: seq<Step>, k: nat)
    requires k < |steps| && Touches(steps[k], PENDING)
    requires forall i :: k < i < |steps| ==> !Touches(steps[i], PENDING)
    ensures PENDING in AfterAll(keys, steps) <==> steps[k].Backup? && OutcomeOf(steps[k].q, steps[k].g) == RequestFailed
    ensures PENDING in AfterAll(keys, steps) ==> AfterAll(keys, steps)[PENDING] == UsedKey(steps[k].q)
    decreases |steps|
  {
    if k == 0 {
      UntouchedOverAll(After(keys, steps[0]), steps[1..], PENDING);
    } else {
      PendingIsLeftExactlyWhen(After(keys, steps[0]), steps[1..], k - 1);
    }
  }

  /** What a failed POST is. */
  lemma FailedRequests(q: Request, g: Gateway)
    requires !(q.encrypt && CallerKey(q) && !ValidKey(q.key.value))
    ensures OutcomeOf(q, g) == RequestFailed <==> g.post.None? || !g.post.value.success
  {
  }
}
