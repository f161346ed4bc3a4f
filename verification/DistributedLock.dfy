/**
 The lock object and the scheduler that uses it. Each method is one uninterrupted call; its effect on the
 fields and on the key is the composition of the protocol steps it stands for.
 */
module DistributedLocks {
  import opened Wrappers
  import opened LeaseLock

  class Redis {
    var key: Option<Entry>
    var now: Time

    constructor ()
      ensures key == None && now == 0
    {
      key := None;
      now := 0;
    }
  }

  /** How a call to Redis fares: it is answered, its request never arrives, or only its reply is lost. */
  datatype Network = Answers | LosesRequest | LosesReply

  class DistributedLock {
    const redis: Redis
    const half: nat
    var lockValue: Option<Uuid>
    var isLocked: bool
    var refreshInterval: Option<Tick>

    constructor (redis: Redis, half: nat)
      requires half > 0
      ensures this.redis == redis && this.half == half && Shows(FRESH)
    {
      this.redis := redis;
      this.half := half;
      lockValue, isLocked, refreshInterval := None, false, None;
    }

    /** The object's fields are those of the protocol's instance `c`. */
    ghost predicate Shows(c: Client)
      reads this
    {
      lockValue == c.lockValue && isLocked == c.isLocked && refreshInterval == c.timer
    }

    /** Request, execution and reply of one `acquire`, or its error. */
    static function Acquired(uuid: Uuid, net: Network, key: Option<Entry>, now: Time, half: nat): (Option<Entry>, Client) {
      var asked := Local(FRESH, CallAcquire(0, uuid), now, half);
      var (k, answered) := if net.LosesRequest? then (key, asked) else Remote(asked, ApplySet(0), key, now, 2 * half);
      (k, Local(answered, if net.Answers? then AcquireReply(0) else AcquireError(0), now, half))
    }

    /** True or false as the lock was free or taken; `None` if the call throws, which leaves the object fresh but,
        when only the reply was lost, the lease in place. */
    method Acquire(uuid: Uuid, net: Network) returns (r: Option<bool>)
      requires Shows(FRESH) && half > 0
      modifies this, redis
      ensures redis.now == old(redis.now)
      ensures redis.key == Acquired(uuid, net, old(redis.key), redis.now, half).0
      ensures Shows(Acquired(uuid, net, old(redis.key), redis.now, half).1)
      ensures r == if net.Answers? then Some(!Live(old(redis.key), redis.now)) else None
      ensures r == Some(true) <==> Acquired(uuid, net, old(redis.key), redis.now, half).1.phase.Section?
      ensures r == Some(true) ==> IsHeldNow() && Stores(redis.key, redis.now, uuid)
      ensures r != Some(true) ==> !IsHeldNow() && refreshInterval.None?
      ensures net.LosesReply? && !Live(old(redis.key), redis.now) ==> Stores(redis.key, redis.now, uuid)
      ensures r == Some(false) || net.LosesRequest? ==> redis.key == old(redis.key)
    {
      lockValue := Some(uuid);
      var stored := false;
      if !net.LosesRequest? {
        var (k, ok) := SetNx(redis.key, redis.now, uuid, 2 * half);
        redis.key := k;
        stored := ok;
      }
      if !net.Answers? {
        isLocked := false;
        lockValue := None;
        return None;
      }
      if stored {
        isLocked := true;
        StartRefreshInterval();
        return Some(true);
      }
      lockValue := None;
      isLocked := false;
      r := Some(false);
    }

    method StartRefreshInterval()
      modifies this`refreshInterval
      ensures refreshInterval == if old(refreshInterval).Some? then old(refreshInterval) else Some(Tick(redis.now + half, true))
    {
      if refreshInterval.Some? {
        return;
      }
      refreshInterval := Some(Tick(redis.now + half, true));
    }

    predicate IsHeldNow()
      reads this
    {
      isLocked && lockValue.Some?
    }

    /** This object's value is the stored one. */
    predicate Owns()
      reads this, redis
    {
      IsHeldNow() && Stores(redis.key, redis.now, lockValue.value)
    }

    /** The key is renewed exactly if it still holds this object's value and the request arrives; true exactly
        if that and the reply arrives as well. */
    method Refresh(net: Network) returns (ok: bool)
      modifies redis
      ensures redis.now == old(redis.now)
      ensures ok <==> old(Owns()) && net.Answers?
      ensures redis.key == if old(Owns()) && !net.LosesRequest? then Some(Entry(lockValue.value, redis.now + 2 * half)) else old(redis.key)
    {
      if !isLocked || lockValue.None? {
        return false;
      }
      var renewed := false;
      if !net.LosesRequest? {
        var (k, done) := ExpireIfMatch(redis.key, redis.now, lockValue.value, 2 * half);
        redis.key := k;
        renewed := done;
      }
      ok := net.Answers? && renewed;
    }

    /** The timer's callback: a refresh that fails, for whatever reason, marks the lock as lost and stops the timer. */
    method OnTimer(net: Network)
      requires refreshInterval.Some?
      modifies this, redis
      ensures redis.now == old(redis.now)
      ensures if old(Owns()) && net.Answers?
              then lockValue == old(lockValue) && isLocked && refreshInterval == Some(Tick(redis.now + half, false))
              else refreshInterval == None && !isLocked
      ensures redis.key == if old(Owns()) && !net.LosesRequest? then Some(Entry(old(lockValue).value, redis.now + 2 * half)) else old(redis.key)
    {
      if !isLocked {
        refreshInterval := None;
        return;
      }
      refreshInterval := Some(Tick(redis.now + half, false));
      var refreshed := Refresh(net);
      if !refreshed {
        isLocked := false;
        lockValue := None;
        refreshInterval := None;
      }
    }

    /** Stops the timer, forgets the value on every path, and deletes the key if and only if it still holds that
        value and the request arrives. */
    method Release(net: Network) returns (ok: bool)
      modifies this, redis
      ensures redis.now == old(redis.now)
      ensures refreshInterval == None && (old(IsHeldNow()) ==> !isLocked && lockValue == None)
      ensures !old(IsHeldNow()) ==> lockValue == old(lockValue) && isLocked == old(isLocked)
      ensures ok <==> old(Owns()) && net.Answers?
      ensures redis.key == if old(Owns()) && !net.LosesRequest? then None else old(redis.key)
    {
      refreshInterval := None;
      if !isLocked || lockValue.None? {
        return false;
      }
      var deleted := false;
      if !net.LosesRequest? {
        var (k, done) := DelIfMatch(redis.key, redis.now, lockValue.value);
        redis.key := k;
        deleted := done;
      }
      isLocked := false;
      lockValue := None;
      ok := net.Answers? && deleted;
    }
  }

  /** What happened while the section ran: the clock, the key as other clients left it, and whether the
      object had learnt in the meantime that it lost the lock. */
  datatype Meanwhile = Meanwhile(now: Time, key: Option<Entry>, noticedLoss: bool)

  /** Which calls of the section throw; `accepted` is the orchestrator's answer. */
  datatype SectionCalls = SectionCalls(stampThrows: bool, accepted: bool, successThrows: bool, noticeThrows: bool, failureThrows: bool)

  /** `status` is what the schedule records last: true for success, `None` if nothing could be written. */
  datatype Outcome = Skipped | LockFailed | Ran(queued: bool, status: Option<bool>)

  /** One scheduled run: skip if the lock is taken, give up if acquiring throws, otherwise dispatch and release
      on every path. The release never deletes a key that another instance stored in the meantime. A run whose
      backup was queued is recorded as failed when recording or announcing its success throws. */
  method ExecuteScheduledBackup(redis: Redis, half: nat, uuid: Uuid, net: Network, releaseNet: Network, during: Meanwhile, calls: SectionCalls)
    returns (r: Outcome)
    requires half > 0 && redis.now <= during.now
    modifies redis
    ensures r.LockFailed? <==> !net.Answers?
    ensures r.Skipped? <==> net.Answers? && Live(old(redis.key), old(redis.now))
    ensures r.Skipped? || net.LosesRequest? ==> redis.key == old(redis.key)
    ensures !r.Ran? ==> redis.now == old(redis.now)
    ensures r.Ran? ==> r.queued == (!calls.stampThrows && calls.accepted)
    ensures r.Ran? ==> (r.status == Some(true) <==> r.queued && !calls.successThrows && (!calls.noticeThrows || calls.failureThrows))
    ensures r.Ran? ==> (r.status.None? <==> (!r.queued || calls.successThrows) && calls.failureThrows)
    ensures r.Ran? ==>
              redis.key == (if !during.noticedLoss && Stores(during.key, during.now, uuid) && !releaseNet.LosesRequest? then None else during.key)
    ensures r.Ran? && Live(during.key, during.now) && during.key.value.value != uuid ==> redis.key == during.key
  {
    var lock := new DistributedLock(redis, half);
    var lockAcquired := lock.Acquire(uuid, net);
    if lockAcquired.None? {
      return LockFailed;
    }
    if !lockAcquired.value {
      return Skipped;
    }
    var queued, status := false, None;
    var thrown := calls.stampThrows;
    if !thrown {
      queued := calls.accepted;
      thrown := !queued || calls.successThrows;
      if !thrown {
        status := Some(true);
        thrown := calls.noticeThrows;
      }
    }
    if thrown && !calls.failureThrows {
      status := Some(false);
    }
    redis.now := during.now;
    redis.key := during.key;
    if during.noticedLoss {
      lock.isLocked := false;
      lock.lockValue := None;
      lock.refreshInterval := None;
    }
    var _ := lock.Release(releaseNet);
    r := Ran(queued, status);
  }
}
