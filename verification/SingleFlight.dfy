/** InfrastructureManager: concurrent callers of ensureInfrastructure share one startup, and
    waitForReady polls until every required service answers or the time is up. */
module SingleFlight {
  import opened Wrappers

  type Service = string

  // ---------- What `ensureInfrastructure` does to the shared state ----------

  /** A startup promise: the services it was started for and, once it settled, those found
      healthy by its deciding poll; `None` as the finding is a rejection. */
  datatype Startup = Startup(keys: set<Service>, settled: bool, finding: Option<set<Service>>)

  /** One call. `via` is the startup it awaits; `owner` says that it started that one itself. */
  datatype Call = Call(keys: set<Service>, via: nat, owner: bool, returned: bool)

  /** `active` is the field activeStartupPromise. */
  datatype State = State(active: Option<nat>, startups: seq<Startup>, calls: seq<Call>)

  datatype Event =
    | Ensure(keys: set<Service>)
    | Settle(p: nat, finding: Option<set<Service>>)
    | Return(c: nat)

  const IDLE := State(None, [], [])

  /** A startup resolves only after a poll that found all of its own services healthy. */
  ghost predicate Enabled(s: State, e: Event) {
    match e
    case Ensure(_) => true
    case Settle(p, finding) =>
      p < |s.startups| && !s.startups[p].settled
      && (finding.Some? ==> s.startups[p].keys <= finding.value)
    case Return(c) =>
      c < |s.calls| && !s.calls[c].returned
      && s.calls[c].via < |s.startups| && s.startups[s.calls[c].via].settled
  }

  function Next(s: State, e: Event): State {
    match e
    case Ensure(keys) =>
      if s.active.Some? then
        s.(calls := s.calls + [Call(keys, s.active.value, false, false)])
      else
        State(Some(|s.startups|), s.startups + [Startup(keys, false, None)],
              s.calls + [Call(keys, |s.startups|, true, false)])
    case Settle(p, finding) =>
      if p < |s.startups| then s.(startups := s.startups[p := s.startups[p].(settled := true, finding := finding)])
      else s
    case Return(c) =>
      if c < |s.calls| then
        State(if s.calls[c].owner then None else s.active, s.startups,
              s.calls[c := s.calls[c].(returned := true)])
      else s
  }

  ghost predicate Steps(s: State, es: seq<Event>)
    decreases |es|
  {
    |es| == 0 || (Enabled(s, es[0]) && Steps(Next(s, es[0]), es[1..]))
  }

  function Run(s: State, es: seq<Event>): State
    decreases |es|
  {
    if |es| == 0 then s else Run(Next(s, es[0]), es[1..])
  }

  // ---------- The invariant: the field names the newest startup until its one owner has returned ----------

  predicate Pending(s: State, p: nat) {
    p < |s.startups| && !s.startups[p].settled
  }

  predicate CallOk(s: State, c: nat)
    requires c < |s.calls|
  {
    var call := s.calls[c];
    && call.via < |s.startups|
    && (call.returned ==> s.startups[call.via].settled)
    && (call.owner ==> call.keys == s.startups[call.via].keys)
    && (call.owner ==> (!call.returned <==> s.active == Some(call.via)))
  }

  /** The one call that will clear the field. */
  predicate Owns(s: State, c: nat) {
    c < |s.calls| && s.calls[c].owner && !s.calls[c].returned
  }

  predicate OwnersDiffer(s: State, c: nat, d: nat)
    requires c < |s.calls| && d < |s.calls|
  {
    s.calls[c].owner && s.calls[d].owner && s.calls[c].via == s.calls[d].via ==> c == d
  }

  ghost predicate Inv(s: State) {
    && (s.active.Some? ==> s.active.value + 1 == |s.startups| && exists c: nat :: Owns(s, c))
    && (forall p: nat :: Pending(s, p) ==> s.active == Some(p))
    && (forall p: nat | p < |s.startups| && s.startups[p].settled && s.startups[p].finding.Some? ::
          s.startups[p].keys <= s.startups[p].finding.value)
    && (forall c: nat | c < |s.calls| :: CallOk(s, c))
    && (forall c: nat, d: nat | c < |s.calls| && d < |s.calls| :: OwnersDiffer(s, c, d))
  }

  lemma StepKeepsInv(s: State, e: Event)
    requires Inv(s) && Enabled(s, e)
    ensures Inv(Next(s, e))
  {
    var t := Next(s, e);
    if e.Return? { assert CallOk(s, e.c); }
    forall p: nat | Pending(t, p) ensures t.active == Some(p) {
      if p < |s.startups| { assert Pending(s, p); }
    }
    forall c: nat | c < |t.calls| ensures CallOk(t, c) {
      if c < |s.calls| {
        assert CallOk(s, c);
        if e.Return? { assert OwnersDiffer(s, c, e.c); }
      }
    }
    forall c: nat, d: nat | c < |t.calls| && d < |t.calls| ensures OwnersDiffer(t, c, d) {
      if c < |s.calls| { assert CallOk(s, c); }
      if d < |s.calls| { assert CallOk(s, d); }
      if c < |s.calls| && d < |s.calls| { assert OwnersDiffer(s, c, d); }
    }
    if t.active.Some? {
      if s.active.Some? {
        var c: nat :| Owns(s, c);
        assert CallOk(s, c);
        assert Owns(t, c);
      } else {
        assert Owns(t, |s.calls|);
      }
    }
  }

  lemma {:induction false} RunsKeepInv(s: State, es: seq<Event>)
    requires Inv(s) && Steps(s, es)
    ensures Inv(Run(s, es))
    decreases |es|
  {
    if |es| > 0 {
      StepKeepsInv(s, es[0]);
      RunsKeepInv(Next(s, es[0]), es[1..]);
    }
  }

  /** In no run are two startups under way at once, however many callers overlap. */
  lemma OneStartupAtATime(es: seq<Event>, p: nat, q: nat)
    requires Steps(IDLE, es)
    requires Pending(Run(IDLE, es), p) && Pending(Run(IDLE, es), q)
    ensures p == q
  {
    RunsKeepInv(IDLE, es);
  }

  /** Whether startups succeed or fail, once every call has returned the field is clear again, so
      the next caller starts afresh instead of being given an old outcome. */
  lemma QuietMeansCleared(es: seq<Event>)
    requires Steps(IDLE, es)
    requires forall c: nat | c < |Run(IDLE, es).calls| :: Run(IDLE, es).calls[c].returned
    ensures Run(IDLE, es).active.None?
    ensures forall p: nat :: !Pending(Run(IDLE, es), p)
  {
    RunsKeepInv(IDLE, es);
  }

  /** The outcome a returned call reports: true for a resolved promise. */
  predicate Reports(s: State, c: nat, ok: bool) {
    && c < |s.calls| && s.calls[c].returned
    && s.calls[c].via < |s.startups|
    && ok == s.startups[s.calls[c].via].finding.Some?
  }

  // ---------- What a caller may rely on ----------

  /** Later events leave what a call was told, and by which startup, as it was. */
  lemma {:induction false} ReportsAreFinal(s: State, es: seq<Event>, c: nat)
    requires Inv(s) && Steps(s, es) && c < |s.calls|
    ensures var t := Run(s, es);
      && c < |t.calls| && t.calls[c].via == s.calls[c].via && t.calls[c].keys == s.calls[c].keys
      && t.calls[c].owner == s.calls[c].owner
      && |s.startups| <= |t.startups|
      && (forall p: nat | p < |s.startups| ::
            t.startups[p].keys == s.startups[p].keys && (s.startups[p].settled ==> t.startups[p] == s.startups[p]))
      && (forall ok :: Reports(s, c, ok) ==> Reports(t, c, ok))
    decreases |es|
  {
    if |es| > 0 {
      var n := Next(s, es[0]);
      StepKeepsInv(s, es[0]);
      ReportsAreFinal(n, es[1..], c);
      assert CallOk(s, c);
      forall ok | Reports(s, c, ok) ensures Reports(n, c, ok) {}
    }
  }

  /** The call that an `Ensure` event creates: whom it waits for depends on the field alone. */
  function Awaited(s: State, keys: set<Service>): set<Service>
    requires s.active.Some? ==> s.active.value < |s.startups|
  {
    if s.active.Some? then s.startups[s.active.value].keys else keys
  }

  /** A call made in `s` that is told "ready" has had exactly the services of the startup it met
      checked: its own when it met none, else those that the earlier caller asked for. */
  lemma ReadyCoversWhatWasAwaited(before: seq<Event>, keys: set<Service>, after: seq<Event>)
    requires Steps(IDLE, before)
    requires Steps(Next(Run(IDLE, before), Ensure(keys)), after)
    ensures var s := Run(IDLE, before);
      var t := Run(Next(s, Ensure(keys)), after);
      var c := |s.calls|;
      && (s.active.Some? ==> s.active.value < |s.startups|)
      && (Reports(t, c, true) ==>
            && t.startups[t.calls[c].via].keys == Awaited(s, keys)
            && Awaited(s, keys) <= t.startups[t.calls[c].via].finding.value)
  {
    var s := Run(IDLE, before);
    RunsKeepInv(IDLE, before);
    StepKeepsInv(s, Ensure(keys));
    var n := Next(s, Ensure(keys));
    RunsKeepInv(n, after);
    ReportsAreFinal(n, after, |s.calls|);
    var t := Run(n, after);
    assert CallOk(t, |s.calls|);
  }

  ghost predicate AlwaysCovered(s: State, keys: set<Service>) {
    var n := Next(s, Ensure(keys));
    forall after | Steps(n, after) ::
      Covered(Run(n, after), |s.calls|, keys)
  }

  predicate Covered(t: State, c: nat, keys: set<Service>) {
    Reports(t, c, true) ==> keys <= t.startups[t.calls[c].via].finding.value
  }

  /** The caller meets no startup, one under way that includes its services, or one that has settled, as a
      failure or with its services found healthy. */
  predicate Includes(s: State, keys: set<Service>)
    requires s.active.Some? ==> s.active.value < |s.startups|
  {
    s.active.Some? ==>
      var met := s.startups[s.active.value];
      if !met.settled then keys <= met.keys else met.finding.None? || keys <= met.finding.value
  }

  /** "Ready" means that the caller's own services were found healthy, in every continuation, exactly when
      that is so. Otherwise it can be told "ready" although a service it needs was never looked at. */
  lemma ReadyMeansReadyExactlyWhen(before: seq<Event>, keys: set<Service>)
    requires Steps(IDLE, before)
    ensures var s := Run(IDLE, before);
      (s.active.Some? ==> s.active.value < |s.startups|) && (AlwaysCovered(s, keys) <==> Includes(s, keys))
  {
    var s := Run(IDLE, before);
    RunsKeepInv(IDLE, before);
    if Includes(s, keys) {
      IncludedIsCovered(before, keys);
    } else {
      ExcludedIsMisled(s, keys);
    }
  }

  lemma IncludedIsCovered(before: seq<Event>, keys: set<Service>)
    requires Steps(IDLE, before) && Inv(Run(IDLE, before)) && Includes(Run(IDLE, before), keys)
    ensures AlwaysCovered(Run(IDLE, before), keys)
  {
    var s := Run(IDLE, before);
    var n := Next(s, Ensure(keys));
    StepKeepsInv(s, Ensure(keys));
    forall after | Steps(n, after) ensures Covered(Run(n, after), |s.calls|, keys) {
      ReadyCoversWhatWasAwaited(before, keys, after);
      ReportsAreFinal(n, after, |s.calls|);
    }
  }

  lemma ExcludedIsMisled(s: State, keys: set<Service>)
    requires Inv(s) && !Includes(s, keys)
    ensures !AlwaysCovered(s, keys)
  {
    var n := Next(s, Ensure(keys));
    var met := s.startups[s.active.value];
    var reply := Return(|s.calls|);
    var after := [reply];
    if met.settled {
      assert after[1..] == [];
      assert Enabled(n, reply) && Steps(n, after) && Run(n, after) == Next(n, reply);
    } else {
      var settle := Settle(s.active.value, Some(met.keys));
      after := [settle, reply];
      assert after[1..] == [reply] && after[1..][1..] == [];
      assert Enabled(n, settle) && Enabled(Next(n, settle), reply);
      assert Steps(n, after);
      assert Run(Next(n, settle), [reply]) == Next(Next(n, settle), reply);
      assert Run(n, after) == Next(Next(n, settle), reply);
    }
    assert !Covered(Run(n, after), |s.calls|, keys);
  }

  // ---------- waitForReady ----------

  /** The outside world: what the k-th poll finds healthy, and the time it takes. */
  datatype World = World(healthy: nat -> set<Service>, takes: nat -> nat)

  datatype Outcome = Ready(poll: nat) | TimedOut(failed: seq<Service>)

  /** The time on the clock when the k-th poll begins: each poll is followed by one pause. */
  function Begins(w: World, interval: nat, k: nat): nat {
    if k == 0 then 0 else Begins(w, interval, k - 1) + w.takes(k - 1) + interval
  }

  function Unhealthy(keys: seq<Service>, healthy: set<Service>): (r: seq<Service>)
    ensures r == [] <==> AllHealthy(keys, healthy)
    ensures forall i | 0 <= i < |r| :: r[i] in keys && r[i] !in healthy
    ensures forall i | 0 <= i < |keys| && keys[i] !in healthy :: keys[i] in r
  {
    if |keys| == 0 then []
    else (if keys[0] in healthy then [] else [keys[0]]) + Unhealthy(keys[1..], healthy)
  }

  predicate AllHealthy(keys: seq<Service>, healthy: set<Service>) {
    forall i | 0 <= i < |keys| :: keys[i] in healthy
  }

  lemma {:induction false} BeginsGrows(w: World, interval: nat, j: nat, k: nat)
    requires j <= k
    ensures Begins(w, interval, j) + (k - j) * interval <= Begins(w, interval, k)
    decreases k
  {
    if j < k {
      BeginsGrows(w, interval, j, k - 1);
      assert (k - j) * interval == (k - 1 - j) * interval + interval;
    }
  }

  /** Poll k begins in time, and it finds every required service healthy. */
  predicate Succeeds(w: World, keys: seq<Service>, timeout: nat, interval: nat, k: nat) {
    Begins(w, interval, k) < timeout && AllHealthy(keys, w.healthy(k))
  }

  lemma LaterPollsAreTooLate(w: World, keys: seq<Service>, timeout: nat, interval: nat, k: nat)
    requires Begins(w, interval, k) >= timeout
    ensures forall j: nat | k <= j :: !Succeeds(w, keys, timeout, interval, j)
  {
    forall j: nat | k <= j ensures !Succeeds(w, keys, timeout, interval, j) {
      BeginsGrows(w, interval, k, j);
    }
  }

  /** Ready exactly when a poll begun before the timeout finds everything healthy, and then the
      first such poll; otherwise one more poll is made and the error lists what that one found. */
  method WaitForReady(w: World, keys: seq<Service>, timeout: nat, interval: nat)
    returns (r: Outcome, polls: nat)
    requires interval > 0
    ensures r.Ready? <==> exists k: nat :: Succeeds(w, keys, timeout, interval, k)
    ensures r.Ready? ==>
      && polls == r.poll + 1
      && Succeeds(w, keys, timeout, interval, r.poll)
      && forall k: nat | k < r.poll :: !Succeeds(w, keys, timeout, interval, k)
    ensures r.TimedOut? ==>
      && polls > 0 && Begins(w, interval, polls - 1) >= timeout
      && r.failed == Unhealthy(keys, w.healthy(polls - 1))
    ensures polls >= 2 ==> Begins(w, interval, polls - 2) < timeout
  {
    var k := 0;
    var elapsed := 0;
    while elapsed < timeout
      invariant elapsed == Begins(w, interval, k)
      invariant k > 0 ==> Begins(w, interval, k - 1) < timeout
      invariant forall j: nat | j < k :: !Succeeds(w, keys, timeout, interval, j)
      decreases timeout - elapsed
    {
      var found := w.healthy(k);
      if AllHealthy(keys, found) {
        assert Succeeds(w, keys, timeout, interval, k);
        return Ready(k), k + 1;
      }
      assert !Succeeds(w, keys, timeout, interval, k);
      elapsed := elapsed + w.takes(k) + interval;
      k := k + 1;
    }
    LaterPollsAreTooLate(w, keys, timeout, interval, k);
    r, polls := TimedOut(Unhealthy(keys, w.healthy(k))), k + 1;
  }

  /** How many polls that can be: whatever the services do, the pauses alone use up the timeout. */
  lemma PollsAreBounded(w: World, timeout: nat, interval: nat, polls: nat)
    requires interval > 0
    requires polls >= 2 ==> Begins(w, interval, polls - 2) < timeout
    ensures (polls - 2) * interval < timeout || polls <= 1
  {
    if polls >= 2 { BeginsGrows(w, interval, 0, polls - 2); }
  }

  /** The last poll of a timed-out wait decides nothing: it may find every service healthy, and
      then the timeout error names none. */
  lemma ATimeoutMayNameNoService(keys: seq<Service>, timeout: nat, interval: nat)
    requires |keys| > 0 && timeout > 0 && interval > 0
    ensures exists w: World ::
      && (forall k: nat :: !Succeeds(w, keys, timeout, interval, k))
      && Begins(w, interval, 1) >= timeout && Unhealthy(keys, w.healthy(1)) == []
  {
    var every := set i | 0 <= i < |keys| :: keys[i];
    var w := World((k: nat) => if k == 0 then {} else every, (k: nat) => timeout);
    forall k: nat ensures !Succeeds(w, keys, timeout, interval, k) {
      if k >= 1 { BeginsGrows(w, interval, 1, k); }
      assert keys[0] !in w.healthy(0);
    }
    assert AllHealthy(keys, w.healthy(1));
  }
}
