/**
 The Redis lease lock as a protocol: one key, any number of lock instances, and a network on which
 every request and every reply is a step of its own. An instance is fresh and acquires once.
 */
module LeaseLock {
  import opened Wrappers

  type Instance = nat
  type Uuid = nat
  type Time = nat

  // ---------- Redis ----------

  /** The stored value and the moment it expires; an expired entry reads as absent. */
  datatype Entry = Entry(value: Uuid, expires: Time)

  predicate Live(key: Option<Entry>, now: Time) {
    key.Some? && now < key.value.expires
  }

  predicate Stores(key: Option<Entry>, now: Time, v: Uuid) {
    Live(key, now) && key.value.value == v
  }

  /** SET key v EX ttl NX. */
  function SetNx(key: Option<Entry>, now: Time, v: Uuid, ttl: nat): (Option<Entry>, bool) {
    if Live(key, now) then (key, false) else (Some(Entry(v, now + ttl)), true)
  }

  /** The release script: delete if the stored value is `v`. */
  function DelIfMatch(key: Option<Entry>, now: Time, v: Uuid): (Option<Entry>, bool) {
    if Stores(key, now, v) then (None, true) else (key, false)
  }

  /** The refresh script: renew the expiry if the stored value is `v`. */
  function ExpireIfMatch(key: Option<Entry>, now: Time, v: Uuid, ttl: nat): (Option<Entry>, bool) {
    if Stores(key, now, v) then (Some(Entry(v, now + ttl)), true) else (key, false)
  }

  // ---------- One instance ----------

  /** `Section` is the time between `acquire` returning true and the call of `release`. */
  datatype Phase = Idle | Acquiring | Section | Releasing | Done

  /** When the next refresh is due, and whether it is the first one. */
  datatype Tick = Tick(due: Time, first: bool)

  /** `lockValue`, `isLocked` and `timer` are the object's fields. `token` remembers the UUID it drew.
      `setSent`, `delSent` and `refreshes` are requests Redis has not executed yet; `setReply`, `delReply`,
      `good` and `bad` are replies not yet received. `applied` is when Redis last executed a successful
      SET or EXPIRE of this instance. */
  datatype Client = Client(
    phase: Phase, token: Option<Uuid>, lockValue: Option<Uuid>, isLocked: bool, timer: Option<Tick>,
    setSent: bool, setReply: Option<bool>, delSent: bool, delReply: Option<bool>,
    refreshes: seq<Tick>, good: nat, bad: nat, applied: Time)

  const FRESH: Client := Client(Idle, None, None, false, None, false, None, false, None, [], 0, 0, 0)

  predicate IsHeld(c: Client) {
    c.isLocked && c.lockValue.Some?
  }

  /** The refresh timer fires every half TTL, so a TTL is twice `half`. */
  datatype State = State(now: Time, key: Option<Entry>, clients: map<Instance, Client>, half: nat)

  function Ttl(s: State): nat {
    2 * s.half
  }

  // ---------- Steps ----------

  datatype Event =
    | Advance(dt: nat)
    | CallAcquire(i: Instance, uuid: Uuid)
    | ApplySet(i: Instance)
    | AcquireReply(i: Instance)
    | AcquireError(i: Instance)
    | TimerFires(i: Instance)
    | ApplyRefresh(i: Instance)
    | RefreshReply(i: Instance, ok: bool)
    | RefreshError(i: Instance)
    | CallRelease(i: Instance)
    | ApplyDel(i: Instance)
    | ReleaseReply(i: Instance)
    | ReleaseError(i: Instance)

  ghost predicate Enabled(s: State, e: Event) {
    if e.Advance? then true
    else
      e.i in s.clients && var c := s.clients[e.i];
      match e
      case Advance(_) => true
      case CallAcquire(_, uuid) => c.phase.Idle? && forall j :: j in s.clients ==> s.clients[j].token != Some(uuid)
      case ApplySet(_) => c.setSent
      case AcquireReply(_) => c.phase.Acquiring? && c.setReply.Some?
      case AcquireError(_) => c.phase.Acquiring?
      case TimerFires(_) => c.timer.Some? && c.timer.value.due <= s.now
      case ApplyRefresh(_) => |c.refreshes| > 0
      case RefreshReply(_, ok) => if ok then c.good > 0 else c.bad > 0
      case RefreshError(_) => |c.refreshes| + c.good + c.bad > 0
      case CallRelease(_) => c.phase.Section?
      case ApplyDel(_) => c.delSent
      case ReleaseReply(_) => c.phase.Releasing? && c.delReply.Some?
      case ReleaseError(_) => c.phase.Releasing?
  }

  /** The fields after the lock is found lost. */
  function Lost(c: Client): Client {
    c.(isLocked := false, lockValue := None, timer := None)
  }

  /** What the object does on its own; Redis is not involved. */
  function Local(c: Client, e: Event, now: Time, half: nat): Client
    requires !e.Advance?
  {
    match e
    case CallAcquire(_, uuid) => c.(phase := Acquiring, token := Some(uuid), lockValue := Some(uuid), setSent := true)
    case AcquireReply(_) =>
      if c.setReply == Some(true)
      then c.(phase := Section, isLocked := true, timer := Some(Tick(now + half, true)), setReply := None)
      else c.(phase := Done, isLocked := false, lockValue := None, setReply := None)
    case AcquireError(_) => c.(phase := Done, isLocked := false, lockValue := None, setReply := None)
    case TimerFires(_) =>
      if !c.isLocked then c.(timer := None)
      else if c.lockValue.None? then Lost(c)
      else if c.timer.None? then c
      else c.(timer := Some(Tick(now + half, false)), refreshes := c.refreshes + [c.timer.value])
    case RefreshReply(_, ok) =>
      if ok then c.(good := if c.good > 0 then c.good - 1 else 0)
      else Lost(c).(bad := if c.bad > 0 then c.bad - 1 else 0)
    case RefreshError(_) => Lost(c)
    case CallRelease(_) =>
      if !c.isLocked || c.lockValue.None? then c.(phase := Done, timer := None)
      else c.(phase := Releasing, timer := None, delSent := true)
    case ReleaseReply(_) => c.(phase := Done, isLocked := false, lockValue := None, delReply := None)
    case ReleaseError(_) => c.(phase := Done, isLocked := false, lockValue := None)
    case _ => c
  }

  /** What Redis does with the oldest request of the kind; the reply is dropped if nobody waits for it. */
  function Remote(c: Client, e: Event, key: Option<Entry>, now: Time, ttl: nat): (r: (Option<Entry>, Client))
    requires c.token.Some?
  {
    var v := c.token.value;
    match e
    case ApplySet(_) =>
      var (k, ok) := SetNx(key, now, v, ttl);
      (k, c.(setSent := false, setReply := if c.phase.Acquiring? then Some(ok) else None, applied := if ok then now else c.applied))
    case ApplyRefresh(_) =>
      var (k, ok) := ExpireIfMatch(key, now, v, ttl);
      (k, c.(refreshes := if |c.refreshes| > 0 then c.refreshes[1..] else [],
             good := if ok then c.good + 1 else c.good, bad := if ok then c.bad else c.bad + 1,
             applied := if ok then now else c.applied))
    case ApplyDel(_) =>
      var (k, ok) := DelIfMatch(key, now, v);
      (k, c.(delSent := false, delReply := Some(ok)))
    case _ => (key, c)
  }

  predicate AtRedis(e: Event) {
    e.ApplySet? || e.ApplyRefresh? || e.ApplyDel?
  }

  ghost function Next(s: State, e: Event): State
    requires Enabled(s, e)
  {
    if e.Advance? then s.(now := s.now + e.dt)
    else if AtRedis(e) && s.clients[e.i].token.Some? then
      var (k, c) := Remote(s.clients[e.i], e, s.key, s.now, Ttl(s));
      s.(key := k, clients := s.clients[e.i := c])
    else s.(clients := s.clients[e.i := Local(s.clients[e.i], e, s.now, s.half)])
  }

  ghost predicate Initial(s: State) {
    s.half > 0 && s.key == None && forall i :: i in s.clients ==> s.clients[i] == FRESH
  }

  ghost predicate Run(states: seq<State>, events: seq<Event>) {
    && |states| == |events| + 1
    && Initial(states[0])
    && forall n {:trigger events[n]} :: 0 <= n < |events| ==> Enabled(states[n], events[n]) && states[n + 1] == Next(states[n], events[n])
  }

  // ---------- The invariant ----------

  /** The instance has been granted the lease and has not asked for it to be given up. */
  predicate Granted(c: Client) {
    c.phase.Section? || (c.phase.Acquiring? && c.setReply == Some(true))
  }

  /** Less than a TTL has passed since Redis last executed a SET or EXPIRE of this instance. */
  predicate Unexpired(s: State, c: Client) {
    s.now < c.applied + Ttl(s)
  }

  ghost predicate ClientOk(s: State, c: Client) {
    && (c.phase.Idle? ==> c == FRESH)
    && (!c.phase.Idle? ==> c.token.Some?)
    && (c.lockValue.Some? ==> c.lockValue == c.token)
    && (c.isLocked ==> c.lockValue.Some?)
    && (c.phase.Acquiring? ==> !c.isLocked && c.lockValue == c.token && (c.setSent <==> c.setReply.None?))
    && (c.setSent ==> (c.phase.Acquiring? || c.phase.Done?) && c.refreshes == [] && !c.delSent)
    && (c.phase.Acquiring? ==> c.refreshes == [] && !c.delSent && c.good == 0 && c.bad == 0)
    && (c.timer.Some? ==> c.phase.Section?)
    && (IsHeld(c) ==> c.phase.Section? || c.phase.Releasing?)
    && (c.delSent ==> c.phase.Releasing? || c.phase.Done?)
    && (c.setSent ==> s.key.None? || Some(s.key.value.value) != c.token)
    && c.applied <= s.now
    && (Granted(c) && Unexpired(s, c) ==> s.key == Some(Entry(c.token.value, c.applied + Ttl(s))))
    && (s.key.Some? && Some(s.key.value.value) == c.token ==> s.key.value.expires == c.applied + Ttl(s))
  }

  ghost predicate Inv(s: State) {
    && s.half > 0
    && (forall i {:trigger s.clients[i]} :: i in s.clients ==> ClientOk(s, s.clients[i]))
    && (forall i, j {:trigger s.clients[i], s.clients[j]} :: i in s.clients && j in s.clients && i != j && s.clients[i].token.Some? ==> s.clients[i].token != s.clients[j].token)
    && (s.key.Some? ==> exists i {:trigger s.clients[i]} :: i in s.clients && s.clients[i].token == Some(s.key.value.value))
  }

  lemma LocalKeepsOwn(s: State, e: Event)
    requires Inv(s) && Enabled(s, e) && !e.Advance? && !AtRedis(e)
    ensures ClientOk(Next(s, e), Next(s, e).clients[e.i])
    ensures s.clients[e.i].token.Some? ==> Next(s, e).clients[e.i].token == s.clients[e.i].token
    ensures Next(s, e).clients[e.i].token != s.clients[e.i].token ==>
              forall j :: j in s.clients ==> s.clients[j].token != Next(s, e).clients[e.i].token
  {
    assert ClientOk(s, s.clients[e.i]);
    if e.CallAcquire? && s.key.Some? {
      var i :| i in s.clients && s.clients[i].token == Some(s.key.value.value);
    }
  }

  /** A step that only one instance takes leaves the key and the others alone. */
  lemma LocalKeepsInv(s: State, e: Event)
    requires Inv(s) && Enabled(s, e) && !e.Advance? && !AtRedis(e)
    ensures Inv(Next(s, e))
  {
    var t := Next(s, e);
    LocalKeepsOwn(s, e);
    forall i | i in t.clients ensures ClientOk(t, t.clients[i]) {
      if i != e.i { assert ClientOk(s, s.clients[i]); }
    }
    forall i, j | i in t.clients && j in t.clients && i != j && t.clients[i].token.Some? ensures t.clients[i].token != t.clients[j].token {
      assert i != e.i ==> t.clients[i] == s.clients[i];
      assert j != e.i ==> t.clients[j] == s.clients[j];
    }
    if s.key.Some? {
      var i :| i in s.clients && s.clients[i].token == Some(s.key.value.value);
      assert t.clients[i].token == Some(s.key.value.value);
    }
  }

  lemma RemoteKeepsOwn(s: State, e: Event)
    requires Inv(s) && Enabled(s, e) && AtRedis(e)
    ensures ClientOk(Next(s, e), Next(s, e).clients[e.i])
  {
    assert ClientOk(s, s.clients[e.i]);
  }

  lemma RemoteKeepsOther(s: State, e: Event, i: Instance)
    requires Inv(s) && Enabled(s, e) && AtRedis(e) && i in s.clients && i != e.i
    ensures Next(s, e).clients[i] == s.clients[i] && ClientOk(Next(s, e), s.clients[i])
  {
    assert ClientOk(s, s.clients[i]) && ClientOk(s, s.clients[e.i]);
    assert s.clients[i].token.Some? ==> s.clients[i].token != s.clients[e.i].token;
  }

  lemma RemoteKeepsInv(s: State, e: Event)
    requires Inv(s) && Enabled(s, e) && AtRedis(e)
    ensures Inv(Next(s, e))
  {
    var t := Next(s, e);
    RemoteKeepsOwn(s, e);
    forall i | i in t.clients ensures ClientOk(t, t.clients[i]) {
      if i != e.i { RemoteKeepsOther(s, e, i); }
    }
    forall i, j | i in t.clients && j in t.clients && i != j && t.clients[i].token.Some? ensures t.clients[i].token != t.clients[j].token {
      assert t.clients[i].token == s.clients[i].token && t.clients[j].token == s.clients[j].token;
    }
    if t.key.Some? {
      if t.key == s.key {
        var i :| i in s.clients && s.clients[i].token == Some(s.key.value.value);
        assert t.clients[i].token == s.clients[i].token;
      } else {
        assert t.clients[e.i].token == Some(t.key.value.value);
      }
    }
  }

  lemma StepKeepsInv(s: State, e: Event)
    requires Inv(s) && Enabled(s, e)
    ensures Inv(Next(s, e))
  {
    if e.Advance? {
      var t := Next(s, e);
      forall i | i in t.clients ensures ClientOk(t, t.clients[i]) {
        assert ClientOk(s, s.clients[i]);
      }
    } else if AtRedis(e) {
      RemoteKeepsInv(s, e);
    } else {
      LocalKeepsInv(s, e);
    }
  }

  lemma {:induction false} RunsKeepInv(states: seq<State>, events: seq<Event>, n: nat)
    requires Run(states, events) && n < |states|
    ensures Inv(states[n])
  {
    if n > 0 {
      RunsKeepInv(states, events, n - 1);
      StepKeepsInv(states[n - 1], events[n - 1]);
    }
  }

  // ---------- Safety ----------

  /** Between `acquire` returning true and the call of `release`, an instance whose last applied SET or
      EXPIRE is less than a TTL old owns the stored key. */
  lemma SectionOwnsTheKey(states: seq<State>, events: seq<Event>, n: nat, i: Instance)
    requires Run(states, events) && n < |states| && i in states[n].clients
    requires states[n].clients[i].phase.Section? && Unexpired(states[n], states[n].clients[i])
    ensures states[n].clients[i].token.Some? && Stores(states[n].key, states[n].now, states[n].clients[i].token.value)
  {
    RunsKeepInv(states, events, n);
    assert ClientOk(states[n], states[n].clients[i]);
  }

  /** Two instances are never in their sections with unexpired leases at the same time. */
  lemma MutualExclusion(states: seq<State>, events: seq<Event>, n: nat, i: Instance, j: Instance)
    requires Run(states, events) && n < |states| && i in states[n].clients && j in states[n].clients
    requires states[n].clients[i].phase.Section? && Unexpired(states[n], states[n].clients[i])
    requires states[n].clients[j].phase.Section? && Unexpired(states[n], states[n].clients[j])
    ensures i == j
  {
    RunsKeepInv(states, events, n);
    assert ClientOk(states[n], states[n].clients[i]) && ClientOk(states[n], states[n].clients[j]);
  }

  /** The lease condition is needed: once a holder's lease has run out and nobody renewed the key, any
      fresh instance can enter its section while the first is still in its own. */
  lemma ALapsedHolderCanBeJoined(s: State, i: Instance, j: Instance, uuid: Uuid)
    requires Inv(s) && i in s.clients && j in s.clients && s.clients[i].phase.Section? && s.clients[j].phase.Idle?
    requires !Live(s.key, s.now)
    requires forall k :: k in s.clients ==> s.clients[k].token != Some(uuid)
    ensures !Unexpired(s, s.clients[i])
    ensures var s1 := Next(s, CallAcquire(j, uuid));
            Enabled(s1, ApplySet(j)) && var s2 := Next(s1, ApplySet(j));
            Enabled(s2, AcquireReply(j)) && var s3 := Next(s2, AcquireReply(j));
            s3.clients[i].phase.Section? && s3.clients[j].phase.Section? && i != j
  {
    assert ClientOk(s, s.clients[i]) && ClientOk(s, s.clients[j]);
  }

  /** `isHeld()` is no substitute for the section: after the script has deleted the key and before its
      reply arrives, the object still says it holds the lock. */
  lemma HeldOutlivesTheKey(s: State, i: Instance)
    requires Inv(s) && i in s.clients && s.clients[i].phase.Section? && s.clients[i].isLocked
    requires Unexpired(s, s.clients[i])
    ensures Enabled(s, CallRelease(i)) && Enabled(Next(s, CallRelease(i)), ApplyDel(i))
    ensures var t := Next(Next(s, CallRelease(i)), ApplyDel(i)); t.key == None && IsHeld(t.clients[i])
  {
    assert ClientOk(s, s.clients[i]);
  }

  /** It says so at no other time: before its section and once `release` has returned or thrown it does not. */
  lemma HeldOnlyAroundTheSection(states: seq<State>, events: seq<Event>, n: nat, i: Instance)
    requires Run(states, events) && n < |states| && i in states[n].clients && IsHeld(states[n].clients[i])
    ensures states[n].clients[i].phase.Section? || states[n].clients[i].phase.Releasing?
  {
    RunsKeepInv(states, events, n);
    assert ClientOk(states[n], states[n].clients[i]);
  }

  /** What can happen to a live entry in one step: nothing, a renewal by a refresh of the instance that
      stored it, or a deletion by the release of that same instance, which has then left its section.
      No release deletes and no refresh extends an entry another instance stored. */
  lemma OnlyTheOwnerTouchesALiveKey(s: State, e: Event, owner: Instance)
    requires Inv(s) && Enabled(s, e) && owner in s.clients && s.clients[owner].token.Some?
    requires Stores(s.key, s.now, s.clients[owner].token.value)
    ensures var t := Next(s, e);
            || t.key == s.key
            || (e == ApplyRefresh(owner) && t.key == Some(Entry(s.key.value.value, s.now + Ttl(s))))
            || (e == ApplyDel(owner) && t.key == None && !s.clients[owner].phase.Section?)
  {
    if AtRedis(e) {
      assert ClientOk(s, s.clients[e.i]) && ClientOk(s, s.clients[owner]);
      if e.i != owner { assert s.clients[e.i].token != s.clients[owner].token; }
    }
  }

  /** If Redis executes no refresh of `owner` any more, `owner` blocks others no longer than the expiry
      it had: from then on a SET NX of anybody else meets an absent key or a third instance's. */
  lemma {:induction false} AStalledHolderBlocksAtMostOneTtl(states: seq<State>, events: seq<Event>, n: nat, m: nat, owner: Instance, v: Uuid)
    requires Run(states, events) && n <= m < |states| && owner in states[n].clients && states[n].clients[owner].token == Some(v)
    requires !states[n].clients[owner].setSent
    requires forall k :: n <= k < m ==> events[k] != ApplyRefresh(owner)
    ensures owner in states[m].clients && states[m].clients[owner].token == Some(v) && !states[m].clients[owner].setSent
    ensures states[m].clients[owner].applied == states[n].clients[owner].applied && states[m].half == states[n].half
    ensures states[m].now >= states[n].clients[owner].applied + Ttl(states[n]) ==> !Stores(states[m].key, states[m].now, v)
    decreases m
  {
    RunsKeepInv(states, events, m);
    if n < m {
      AStalledHolderBlocksAtMostOneTtl(states, events, n, m - 1, owner, v);
      RunsKeepInv(states, events, m - 1);
      StalledStep(states[m - 1], events[m - 1], owner);
    }
    assert ClientOk(states[m], states[m].clients[owner]);
  }

  lemma StalledStep(s: State, e: Event, owner: Instance)
    requires Inv(s) && Enabled(s, e) && owner in s.clients && s.clients[owner].token.Some?
    requires !s.clients[owner].setSent && e != ApplyRefresh(owner)
    ensures var c := Next(s, e).clients[owner];
            c.token == s.clients[owner].token && !c.setSent && c.applied == s.clients[owner].applied && Next(s, e).half == s.half
  {
    assert ClientOk(s, s.clients[owner]);
  }
}
