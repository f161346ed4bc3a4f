/** The orchestrator's queue limit: read the waiting count, compare, create the record, add the job. Several handlers overlap. */
module Admission {

  /** First-attempt waiting jobs, waiting retries, and handlers before and after their check. */
  datatype State = State(waiting: nat, retrying: nat, checking: nat, admitted: nat)

  datatype Event = Arrive | Check | Add | AddFails | PickFirst | RetryQueued | PickRetry

  /** At most `n` handlers overlap; each admits only while fewer than `max` jobs wait. */
  predicate Enabled(s: State, e: Event, n: nat) {
    match e
    case Arrive => s.checking + s.admitted < n
    case Check => s.checking > 0
    case Add => s.admitted > 0
    case AddFails => s.admitted > 0
    case PickFirst => s.waiting > 0
    case RetryQueued => true
    case PickRetry => s.retrying > 0
  }

  function Next(s: State, e: Event, n: nat, max: nat): State
    requires Enabled(s, e, n)
  {
    match e
    case Arrive => s.(checking := s.checking + 1)
    case Check =>
      if s.waiting + s.retrying >= max then s.(checking := s.checking - 1)
      else s.(checking := s.checking - 1, admitted := s.admitted + 1)
    case Add => s.(admitted := s.admitted - 1, waiting := s.waiting + 1)
    case AddFails => s.(admitted := s.admitted - 1)
    case PickFirst => s.(waiting := s.waiting - 1)
    case RetryQueued => s.(retrying := s.retrying + 1)
    case PickRetry => s.(retrying := s.retrying - 1)
  }

  const EMPTY := State(0, 0, 0, 0)

  /** The state after a run of events, if every one of them is enabled. */
  predicate Runs(s: State, events: seq<Event>, n: nat, max: nat, t: State)
    decreases |events|
  {
    if |events| == 0 then s == t
    else Enabled(s, events[0], n) && Runs(Next(s, events[0], n, max), events[1..], n, max, t)
  }

  predicate Bounded(s: State, n: nat, max: nat) {
    && s.checking + s.admitted <= n
    && s.waiting + s.admitted <= if max == 0 then 0 else max + n - 1
  }

  lemma {:induction false} RunsStayBounded(s: State, events: seq<Event>, n: nat, max: nat, t: State)
    requires n > 0 && Bounded(s, n, max) && Runs(s, events, n, max, t)
    ensures Bounded(t, n, max)
    decreases |events|
  {
    if |events| > 0 {
      RunsStayBounded(Next(s, events[0], n, max), events[1..], n, max, t);
    }
  }

  /** With at most n overlapping handlers, first-attempt waiting jobs never exceed max + n - 1. */
  lemma WaitingIsBounded(events: seq<Event>, n: nat, max: nat, t: State)
    requires n > 0 && max > 0 && Runs(EMPTY, events, n, max, t)
    ensures t.waiting <= max + n - 1
  {
    RunsStayBounded(EMPTY, events, n, max, t);
  }

  function Repeat(e: Event, k: nat): seq<Event> {
    seq(k, i => e)
  }

  lemma {:induction false} RunsCompose(s: State, a: seq<Event>, m: State, b: seq<Event>, n: nat, max: nat, t: State)
    requires Runs(s, a, n, max, m) && Runs(m, b, n, max, t)
    ensures Runs(s, a + b, n, max, t)
    decreases |a|
  {
    if |a| == 0 {
      assert a + b == b;
    } else {
      assert (a + b)[1..] == a[1..] + b;
      RunsCompose(Next(s, a[0], n, max), a[1..], m, b, n, max, t);
    }
  }

  /** k handlers pass the check one after another without adding yet, and then all add. */
  lemma {:induction false} ArriveAll(s: State, k: nat, n: nat, max: nat)
    requires s.checking + s.admitted + k <= n
    ensures Runs(s, Repeat(Arrive, k), n, max, s.(checking := s.checking + k))
    decreases k
  {
    if k > 0 {
      assert Repeat(Arrive, k)[1..] == Repeat(Arrive, k - 1);
      ArriveAll(s.(checking := s.checking + 1), k - 1, n, max);
    }
  }

  lemma {:induction false} CheckAll(s: State, k: nat, n: nat, max: nat)
    requires k <= s.checking && s.waiting + s.retrying < max
    ensures Runs(s, Repeat(Check, k), n, max, s.(checking := s.checking - k, admitted := s.admitted + k))
    decreases k
  {
    if k > 0 {
      assert Repeat(Check, k)[1..] == Repeat(Check, k - 1);
      CheckAll(s.(checking := s.checking - 1, admitted := s.admitted + 1), k - 1, n, max);
    }
  }

  lemma {:induction false} AddAll(s: State, k: nat, n: nat, max: nat)
    requires k <= s.admitted
    ensures Runs(s, Repeat(Add, k), n, max, s.(admitted := s.admitted - k, waiting := s.waiting + k))
    decreases k
  {
    if k > 0 {
      assert Repeat(Add, k)[1..] == Repeat(Add, k - 1);
      AddAll(s.(admitted := s.admitted - 1, waiting := s.waiting + 1), k - 1, n, max);
    }
  }

  lemma Burst(w: nat, k: nat, n: nat, max: nat) returns (events: seq<Event>)
    requires k <= n && w < max
    ensures Runs(State(w, 0, 0, 0), events, n, max, State(w + k, 0, 0, 0))
  {
    var s := State(w, 0, 0, 0);
    ArriveAll(s, k, n, max);
    CheckAll(State(w, 0, k, 0), k, n, max);
    AddAll(State(w, 0, 0, k), k, n, max);
    RunsCompose(State(w, 0, k, 0), Repeat(Check, k), State(w, 0, 0, k), Repeat(Add, k), n, max, State(w + k, 0, 0, 0));
    events := Repeat(Arrive, k) + (Repeat(Check, k) + Repeat(Add, k));
    RunsCompose(s, Repeat(Arrive, k), State(w, 0, k, 0), Repeat(Check, k) + Repeat(Add, k), n, max, State(w + k, 0, 0, 0));
  }

  lemma {:induction false} FillSerially(w: nat, n: nat, max: nat) returns (events: seq<Event>)
    requires n > 0 && w <= max
    ensures Runs(EMPTY, events, n, max, State(w, 0, 0, 0))
    decreases w
  {
    if w == 0 {
      events := [];
    } else {
      var before := FillSerially(w - 1, n, max);
      var last := Burst(w - 1, 1, n, max);
      RunsCompose(EMPTY, before, State(w - 1, 0, 0, 0), last, n, max, State(w, 0, 0, 0));
      events := before + last;
    }
  }

  /** The bound is attained: n handlers that all check before any adds fill the queue to max + n - 1. */
  lemma BoundIsAttained(n: nat, max: nat) returns (events: seq<Event>)
    requires n > 0 && max > 0
    ensures Runs(EMPTY, events, n, max, State(max + n - 1, 0, 0, 0))
  {
    var before := FillSerially(max - 1, n, max);
    var burst := Burst(max - 1, n, n, max);
    RunsCompose(EMPTY, before, State(max - 1, 0, 0, 0), burst, n, max, State(max + n - 1, 0, 0, 0));
    events := before + burst;
  }
}
