/**
 When the refresh timer keeps the lease alive. `half` is half the TTL and also the timer interval.
 Delays are counted up to the moment Redis executes the refresh.
 */
module LeaseTiming {
  import opened Wrappers
  import opened LeaseLock

  /** Upper bounds on the delays of one environment: of the SET's reply, of the first refresh after it
      fell due, and of every later refresh after it fell due. */
  datatype Bounds = Bounds(reply: nat, firstTick: nat, laterTick: nat)

  /** Reply latency plus first-tick delay, and every later tick's delay, are below half the TTL. */
  predicate Tight(b: Bounds, half: nat) {
    b.reply + b.firstTick < half && b.laterTick < half
  }

  function Allowed(b: Bounds, t: Tick): Time {
    t.due + if t.first then b.firstTick else b.laterTick
  }

  /** The instance is within its bounds now: no granted reply, no due tick and no sent refresh is late. */
  predicate OnTime(b: Bounds, now: Time, c: Client) {
    && (c.phase.Acquiring? && c.setReply == Some(true) ==> now <= c.applied + b.reply)
    && (c.phase.Section? && c.timer.Some? ==> now <= Allowed(b, c.timer.value))
    && (c.phase.Section? ==> forall k :: 0 <= k < |c.refreshes| ==> now <= Allowed(b, c.refreshes[k]))
  }

  ghost predicate Punctual(b: Bounds, s: State) {
    forall i {:trigger s.clients[i]} :: i in s.clients ==> OnTime(b, s.now, s.clients[i])
  }

  /** A run in which every instance is always on time. */
  ghost predicate TimelyRun(b: Bounds, states: seq<State>, events: seq<Event>) {
    Run(states, events) && forall n {:trigger states[n]} :: 0 <= n < |states| ==> Punctual(b, states[n])
  }

  /** And no refresh call is answered by an error. */
  ghost predicate PunctualRun(b: Bounds, states: seq<State>, events: seq<Event>) {
    && TimelyRun(b, states, events)
    && (forall n {:trigger events[n]} :: 0 <= n < |events| ==> !events[n].RefreshError?)
  }

  /** In its section the instance has a running timer and at most one refresh under way, each due no
      later than half a TTL (for the first: plus the reply latency) after the last renewal. */
  predicate Paced(b: Bounds, now: Time, half: nat, c: Client) {
    && c.bad == 0
    && (c.phase.Acquiring? ==> c.refreshes == [])
    && (c.phase.Section? ==>
          && c.isLocked && c.lockValue.Some? && c.timer.Some? && |c.refreshes| <= 1
          && c.timer.value.due <= now + half
          && (c.refreshes == [] ==> DueBy(b, half, c, c.timer.value))
          && (|c.refreshes| == 1 ==>
                DueBy(b, half, c, c.refreshes[0]) && !c.timer.value.first && c.refreshes[0].due + half <= c.timer.value.due))
  }

  predicate DueBy(b: Bounds, half: nat, c: Client, t: Tick) {
    t.due <= c.applied + half + if t.first then b.reply else 0
  }

  /** The duties of a punctual instance leave it inside its lease. */
  lemma PacedIsUnexpired(b: Bounds, s: State, c: Client)
    requires Tight(b, s.half) && c.phase.Section? && Paced(b, s.now, s.half, c) && OnTime(b, s.now, c)
    ensures Unexpired(s, c)
  {
    if |c.refreshes| == 1 {
      assert s.now <= Allowed(b, c.refreshes[0]);
    }
  }

  ghost predicate AllPaced(b: Bounds, s: State) {
    forall i {:trigger s.clients[i]} :: i in s.clients ==>
      (Granted(s.clients[i]) || s.clients[i].phase.Idle? || s.clients[i].phase.Acquiring? ==> Paced(b, s.now, s.half, s.clients[i]))
  }

  lemma StepKeepsPace(b: Bounds, s: State, e: Event)
    requires Inv(s) && Tight(b, s.half) && Punctual(b, s) && AllPaced(b, s)
    requires Enabled(s, e) && !e.RefreshError?
    ensures AllPaced(b, Next(s, e))
  {
    var t := Next(s, e);
    forall i | i in t.clients && (Granted(t.clients[i]) || t.clients[i].phase.Idle? || t.clients[i].phase.Acquiring?)
      ensures Paced(b, t.now, t.half, t.clients[i])
    {
      if !e.Advance? && e.i == i {
        OwnStepKeepsPace(b, s, e);
      }
    }
  }

  lemma OwnStepKeepsPace(b: Bounds, s: State, e: Event)
    requires Inv(s) && Tight(b, s.half) && Punctual(b, s) && AllPaced(b, s)
    requires Enabled(s, e) && !e.RefreshError? && !e.Advance?
    requires var c := Next(s, e).clients[e.i]; Granted(c) || c.phase.Idle? || c.phase.Acquiring?
    ensures Paced(b, s.now, s.half, Next(s, e).clients[e.i])
  {
    var c := s.clients[e.i];
    assert ClientOk(s, c) && OnTime(b, s.now, c);
    if c.phase.Section? {
      PacedIsUnexpired(b, s, c);
    }
  }

  lemma {:induction false} PunctualRunsKeepPace(b: Bounds, states: seq<State>, events: seq<Event>, n: nat)
    requires PunctualRun(b, states, events) && Tight(b, states[0].half) && n < |states|
    ensures Inv(states[n]) && AllPaced(b, states[n]) && states[n].half == states[0].half
  {
    RunsKeepInv(states, events, n);
    if n > 0 {
      PunctualRunsKeepPace(b, states, events, n - 1);
      StepKeepsPace(b, states[n - 1], events[n - 1]);
    }
  }

  /** Over any number of refreshes the lease of an instance in its section never lapses: it always owns the key. */
  lemma TheLeaseNeverLapses(b: Bounds, states: seq<State>, events: seq<Event>, n: nat, i: Instance)
    requires PunctualRun(b, states, events) && Tight(b, states[0].half) && n < |states| && i in states[n].clients && states[n].clients[i].phase.Section?
    ensures Unexpired(states[n], states[n].clients[i])
    ensures states[n].clients[i].token.Some? && Stores(states[n].key, states[n].now, states[n].clients[i].token.value)
  {
    PunctualRunsKeepPace(b, states, events, n);
    assert Punctual(b, states[n]);
    PacedIsUnexpired(b, states[n], states[n].clients[i]);
    SectionOwnsTheKey(states, events, n, i);
  }

  /** A scheduled run dispatches its backup inside the section, so two scheduled runs for one database
      never dispatch at the same time. */
  lemma AtMostOneDispatches(b: Bounds, states: seq<State>, events: seq<Event>, n: nat, i: Instance, j: Instance)
    requires PunctualRun(b, states, events) && Tight(b, states[0].half) && n < |states| && i in states[n].clients && j in states[n].clients
    requires states[n].clients[i].phase.Section? && states[n].clients[j].phase.Section?
    ensures i == j
  {
    TheLeaseNeverLapses(b, states, events, n, i);
    TheLeaseNeverLapses(b, states, events, n, j);
    MutualExclusion(states, events, n, i, j);
  }

  // ---------- The bounds are exact ----------

  /** A timely run with one more timely step. */
  lemma ExtendTimely(b: Bounds, states: seq<State>, events: seq<Event>, e: Event) returns (states': seq<State>, events': seq<Event>)
    requires TimelyRun(b, states, events) && Enabled(states[|events|], e)
    requires Punctual(b, Next(states[|events|], e))
    ensures TimelyRun(b, states', events') && states'[0] == states[0] && events' == events + [e]
    ensures states'[|events'|] == Next(states[|events|], e)
  {
    states' := states + [Next(states[|events|], e)];
    events' := events + [e];
    forall n {:trigger events'[n]} | 0 <= n < |events'|
      ensures Enabled(states'[n], events'[n]) && states'[n + 1] == Next(states'[n], events'[n])
    {
      if n < |events| { assert events[n] == events'[n]; }
    }
  }

  lemma ExtendRun(b: Bounds, states: seq<State>, events: seq<Event>, e: Event) returns (states': seq<State>, events': seq<Event>)
    requires PunctualRun(b, states, events) && Enabled(states[|events|], e) && !e.RefreshError?
    requires Punctual(b, Next(states[|events|], e))
    ensures PunctualRun(b, states', events') && states'[0] == states[0]
    ensures states'[|events'|] == Next(states[|events|], e)
  {
    states', events' := ExtendTimely(b, states, events, e);
    forall n {:trigger events'[n]} | 0 <= n < |events'| ensures !events'[n].RefreshError? {
      if n < |events| { assert events[n] == events'[n]; }
    }
  }

  /** One instance alone, as the lapse below needs it. */
  function Alone(now: Time, half: nat, key: Option<Entry>, c: Client): State {
    State(now, key, map[0 := c], half)
  }

  function InSection(timer: Tick, refreshes: seq<Tick>, good: nat, applied: Time): Client {
    Client(Section, Some(7), Some(7), true, Some(timer), false, None, false, None, refreshes, good, 0, applied)
  }

  /** An instance enters its section with the slowest reply the bounds allow. */
  lemma EnterLate(b: Bounds, half: nat) returns (states: seq<State>, events: seq<Event>)
    requires half > 0
    ensures PunctualRun(b, states, events) && states[0].half == half
    ensures states[|events|] == Alone(b.reply, half, Some(Entry(7, 2 * half)), InSection(Tick(b.reply + half, true), [], 0, 0))
  {
    var s0 := Alone(0, half, None, FRESH);
    states, events := [s0], [];
    states, events := ExtendRun(b, states, events, CallAcquire(0, 7));
    states, events := ExtendRun(b, states, events, ApplySet(0));
    states, events := ExtendRun(b, states, events, Advance(b.reply));
    states, events := ExtendRun(b, states, events, AcquireReply(0));
  }

  /** The first refresh is sent the moment it falls due. */
  lemma RefreshIsSent(b: Bounds, half: nat, before: seq<State>, done: seq<Event>) returns (states: seq<State>, events: seq<Event>)
    requires half > 0 && PunctualRun(b, before, done) && before[0].half == half && b.reply < half
    requires before[|done|] == Alone(b.reply, half, Some(Entry(7, 2 * half)), InSection(Tick(b.reply + half, true), [], 0, 0))
    ensures PunctualRun(b, states, events) && states[0].half == half
    ensures var now := b.reply + half;
            states[|events|] == Alone(now, half, Some(Entry(7, 2 * half)), InSection(Tick(now + half, false), [Tick(now, true)], 0, 0))
  {
    states, events := ExtendRun(b, before, done, Advance(half));
    states, events := ExtendRun(b, states, events, TimerFires(0));
    assert states[|events|].clients[0].refreshes == [Tick(b.reply + half, true)];
  }

  /** And executed at once. */
  lemma RefreshOnce(b: Bounds, half: nat, before: seq<State>, done: seq<Event>) returns (states: seq<State>, events: seq<Event>)
    requires half > 0 && PunctualRun(b, before, done) && before[0].half == half && b.reply < half
    requires before[|done|] == Alone(b.reply, half, Some(Entry(7, 2 * half)), InSection(Tick(b.reply + half, true), [], 0, 0))
    ensures PunctualRun(b, states, events) && states[0].half == half
    ensures var now := b.reply + half;
            states[|events|] == Alone(now, half, Some(Entry(7, now + 2 * half)), InSection(Tick(now + half, false), [], 1, now))
  {
    states, events := RefreshIsSent(b, half, before, done);
    states, events := ExtendRun(b, states, events, ApplyRefresh(0));
  }

  /** If the bounds are not tight, some run keeps them all and still lets a lease lapse inside its section. */
  lemma LooseBoundsLetALeaseLapse(b: Bounds, half: nat) returns (states: seq<State>, events: seq<Event>)
    requires half > 0 && !Tight(b, half)
    ensures PunctualRun(b, states, events) && states[0].half == half
    ensures var last := states[|states| - 1];
            0 in last.clients && last.clients[0].phase.Section? && !Unexpired(last, last.clients[0])
  {
    states, events := EnterLate(b, half);
    var wait := half + b.firstTick;
    if b.reply + b.firstTick < half {
      states, events := RefreshOnce(b, half, states, events);
      wait := half + b.laterTick;
    }
    states, events := ExtendRun(b, states, events, Advance(wait));
  }

  // ---------- The no-error hypothesis is needed ----------

  /** An instance whose timer is stopped and whose refreshes have all been executed. */
  predicate Stopped(c: Client) {
    !c.phase.Idle? && !c.phase.Acquiring? && !c.setSent && c.timer.None? && c.refreshes == []
  }

  /** A refresh error stops the timer; nothing starts it again, and the refreshes under way only get fewer. */
  lemma AnErrorStopsTheTimer(s: State, e: Event, i: Instance)
    requires Inv(s) && Enabled(s, e) && i in s.clients && !s.clients[i].phase.Idle? && !s.clients[i].phase.Acquiring? && !s.clients[i].setSent
    requires e == RefreshError(i) || e == RefreshReply(i, false) || s.clients[i].timer.None?
    ensures var c, d := s.clients[i], Next(s, e).clients[i];
            && !d.phase.Idle? && !d.phase.Acquiring? && !d.setSent && d.timer.None? && |d.refreshes| <= |c.refreshes|
            && (e != ApplyRefresh(i) ==> d.applied == c.applied)
            && (c.phase.Section? && e != CallRelease(i) ==> d.phase.Section?)
  {
    assert ClientOk(s, s.clients[i]);
  }

  lemma {:induction false} StoppedStays(states: seq<State>, events: seq<Event>, n: nat, m: nat, i: Instance)
    requires Run(states, events) && n <= m < |states| && i in states[n].clients && Stopped(states[n].clients[i])
    ensures i in states[m].clients && Stopped(states[m].clients[i])
    ensures forall k :: n <= k < m ==> events[k] != ApplyRefresh(i)
    ensures states[n].clients[i].phase.Section? && (forall k :: n <= k < m ==> events[k] != CallRelease(i)) ==> states[m].clients[i].phase.Section?
    decreases m
  {
    if n < m {
      StoppedStays(states, events, n, m - 1, i);
      RunsKeepInv(states, events, m - 1);
      AnErrorStopsTheTimer(states[m - 1], events[m - 1], i);
    }
  }

  /** Once a refresh has failed and those under way are done, at `n`, the key is lost one TTL after the last applied
      renewal, at the latest; the section goes on until the instance itself releases. */
  lemma AStoppedLeaseRunsOut(states: seq<State>, events: seq<Event>, n: nat, m: nat, i: Instance, v: Uuid)
    requires Run(states, events) && n <= m < |states| && i in states[n].clients && Stopped(states[n].clients[i])
    requires states[n].clients[i].token == Some(v)
    requires states[m].now >= states[n].clients[i].applied + Ttl(states[n])
    ensures i in states[m].clients && !Stores(states[m].key, states[m].now, v) && !Unexpired(states[m], states[m].clients[i])
    ensures states[n].clients[i].phase.Section? && (forall k :: n <= k < m ==> events[k] != CallRelease(i)) ==> states[m].clients[i].phase.Section?
  {
    StoppedStays(states, events, n, m, i);
    AStalledHolderBlocksAtMostOneTtl(states, events, n, m, i, v);
  }

  /** However tight the bounds: in some timely run one refresh error lets a lease lapse inside its section. */
  lemma OneErrorLetsALeaseLapse(b: Bounds, half: nat) returns (states: seq<State>, events: seq<Event>)
    requires half > 0 && Tight(b, half)
    ensures TimelyRun(b, states, events) && states[0].half == half
    ensures |events| > 1 && events[|events| - 2] == RefreshError(0) && forall n :: 0 <= n < |events| - 2 ==> !events[n].RefreshError?
    ensures var last := states[|states| - 1];
            0 in last.clients && last.clients[0].phase.Section? && !Unexpired(last, last.clients[0])
  {
    states, events := EnterLate(b, half);
    states, events := RefreshOnce(b, half, states, events);
    states, events := ExtendTimely(b, states, events, RefreshError(0));
    states, events := ExtendTimely(b, states, events, Advance(2 * half));
  }
}
