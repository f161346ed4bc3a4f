/**
 The queue limit on the pipeline itself: the handlers that read the waiting count, compare, create a record and add the
 job, interleaved with every other step. The counters of `Admission` count exactly what happens here.
 */
module PipelineAdmission {
  import opened Wrappers
  import opened JobRecords
  import opened JobPipeline
  import opened PipelineHandlers
  import Admission

  /** The pipeline with the handlers that have not created a record yet, before and after their check. */
  datatype Installation = Installation(pipeline: State, checking: nat, passed: nat)

  datatype Step =
    | Arrives
    | Checks
    | CreateThrows
    | Pipeline(e: Event)

  function Chosen(items: map<JobId, Item>, p: Item -> bool): set<JobId> {
    set id | id in items && p(items[id])
  }

  predicate IsAdding(item: Item) {
    item.intake.Adding?
  }

  predicate IsWaiting(item: Item) {
    item.queue.Some? && item.queue.value.state.Waiting?
  }

  predicate IsFirst(item: Item) {
    item.intake.FirstWait? && IsWaiting(item)
  }

  /** Of the jobs `getWaitingCount` counts, those no worker has taken yet. */
  function FirstWaiting(s: State): set<JobId> {
    Chosen(s.items, IsFirst)
  }

  function Adding(s: State): set<JobId> {
    Chosen(s.items, IsAdding)
  }

  /** At most `n` handlers overlap; a record is created only after a passed check. */
  predicate StepEnabled(o: Installation, st: Step, n: nat) {
    match st
    case Arrives => o.checking + o.passed + |Adding(o.pipeline)| < n
    case Checks => o.checking > 0
    case CreateThrows => o.passed > 0
    case Pipeline(e) => Enabled(o.pipeline, e) && (e.CreateRecord? ==> o.passed > 0)
  }

  function StepNext(o: Installation, st: Step, n: nat, max: nat): Installation
    requires StepEnabled(o, st, n)
  {
    match st
    case Arrives => o.(checking := o.checking + 1)
    case Checks => o.(checking := o.checking - 1, passed := if |WaitingJobs(o.pipeline)| >= max then o.passed else o.passed + 1)
    case CreateThrows => o.(passed := o.passed - 1)
    case Pipeline(e) =>
      o.(pipeline := Next(o.pipeline, e), passed := if e.CreateRecord? then o.passed - 1 else o.passed)
  }

  predicate StepRuns(o: Installation, steps: seq<Step>, n: nat, max: nat, t: Installation)
    decreases |steps|
  {
    if |steps| == 0 then o == t
    else StepEnabled(o, steps[0], n) && StepRuns(StepNext(o, steps[0], n, max), steps[1..], n, max, t)
  }

  function Counters(o: Installation): Admission.State
    requires Sorted(o.pipeline)
  {
    FirstAreWaiting(o.pipeline);
    Admission.State(|FirstWaiting(o.pipeline)|, |WaitingJobs(o.pipeline)| - |FirstWaiting(o.pipeline)|, o.checking,
          o.passed + |Adding(o.pipeline)|)
  }

  /** Only a job that has been taken is active or delayed, and none is queued before it is added. */
  predicate ItemSorted(item: Item) {
    && (item.intake.Adding? ==> item.queue.None?)
    && (item.queue.Some? && (item.queue.value.state.Active? || item.queue.value.state.Delayed?) ==> item.intake.Past?)
  }

  predicate Sorted(s: State) {
    forall id {:trigger s.items[id]} :: id in s.items ==> ItemSorted(s.items[id])
  }

  lemma FirstAreWaiting(s: State)
    ensures FirstWaiting(s) <= WaitingJobs(s) && |FirstWaiting(s)| <= |WaitingJobs(s)|
  {
    assert WaitingJobs(s) == FirstWaiting(s) + (WaitingJobs(s) - FirstWaiting(s));
  }

  function One(b: bool): nat {
    if b then 1 else 0
  }

  lemma ChosenAfter(items: map<JobId, Item>, id: JobId, item: Item, p: Item -> bool)
    ensures |Chosen(items[id := item], p)| == |Chosen(items, p)| + One(p(item)) - One(id in items && p(items[id]))
  {
    var others := Chosen(items, p) - {id};
    assert Chosen(items[id := item], p) == if p(item) then others + {id} else others;
    assert Chosen(items, p) == if id in items && p(items[id]) then others + {id} else others;
  }

  lemma PipelineCounts(s: State, e: Event)
    requires Enabled(s, e)
    ensures var t := Next(s, e);
            var was := e.id in s.items;
            && e.id in t.items
            && |WaitingJobs(t)| == |WaitingJobs(s)| + One(IsWaiting(t.items[e.id])) - One(was && IsWaiting(s.items[e.id]))
            && |FirstWaiting(t)| == |FirstWaiting(s)| + One(IsFirst(t.items[e.id])) - One(was && IsFirst(s.items[e.id]))
            && |Adding(t)| == |Adding(s)| + One(IsAdding(t.items[e.id])) - One(was && IsAdding(s.items[e.id]))
  {
    var t := Next(s, e);
    assert WaitingJobs(s) == Chosen(s.items, IsWaiting) && WaitingJobs(t) == Chosen(t.items, IsWaiting);
    ChosenAfter(s.items, e.id, t.items[e.id], IsWaiting);
    ChosenAfter(s.items, e.id, t.items[e.id], IsFirst);
    ChosenAfter(s.items, e.id, t.items[e.id], IsAdding);
  }

  lemma PipelineStaysSorted(s: State, e: Event)
    requires Sorted(s) && Enabled(s, e)
    ensures Sorted(Next(s, e))
  {
    var t := Next(s, e);
    forall id | id in t.items ensures ItemSorted(t.items[id]) {
      StepTouchesOneItem(s, e, id);
      if id in s.items { assert ItemSorted(s.items[id]); }
    }
  }

  /** What the event means for the counters, if anything. */
  function Counted(s: State, e: Event): Option<Admission.Event>
    requires Enabled(s, e)
  {
    match e
    case Enqueue(_) => Some(Admission.Add)
    case EnqueueFails(_) => Some(Admission.AddFails)
    case EnqueueLost(_) => Some(Admission.AddFails)
    case Pick(id) => Leaves(s.items[id])
    case Cancel(id, removed, _) => if removed then Leaves(s.items[id]) else None
    case Crash(_) => Some(Admission.RetryQueued)
    case _ => None
  }

  function Leaves(item: Item): Option<Admission.Event> {
    if IsFirst(item) then Some(Admission.PickFirst) else if IsWaiting(item) then Some(Admission.PickRetry) else None
  }

  /** The three counts one item contributes to. */
  datatype Flags = Flags(adding: bool, first: bool, waiting: bool)

  function FlagsOf(s: State, id: JobId): Flags {
    if id in s.items then Flags(IsAdding(s.items[id]), IsFirst(s.items[id]), IsWaiting(s.items[id]))
    else Flags(false, false, false)
  }

  lemma EventMovesOneItem(s: State, e: Event)
    requires Sorted(s) && Enabled(s, e)
    ensures var was, now := FlagsOf(s, e.id), FlagsOf(Next(s, e), e.id);
            match Counted(s, e)
            case None => if e.CreateRecord? then was == Flags(false, false, false) && now == Flags(true, false, false) else now == was
            case Some(Add) => was == Flags(true, false, false) && now == Flags(false, true, true)
            case Some(AddFails) => was == Flags(true, false, false) && now == Flags(false, false, false)
            case Some(PickFirst) => was.first && was.waiting && now == was.(first := false, waiting := false)
            case Some(PickRetry) => !was.first && was.waiting && now == was.(waiting := false)
            case Some(RetryQueued) => !was.first && !was.waiting && now == was.(waiting := true)
            case Some(_) => false
  {
    if e.id in s.items { assert ItemSorted(s.items[e.id]); }
    if StorageEvent(e) { StorageMovesNothing(s, e); }
    else if Counted(s, e).None? { UncountedMovesNothing(s, e); }
  }

  lemma StorageMovesNothing(s: State, e: Event)
    requires Enabled(s, e) && StorageEvent(e)
    ensures Counted(s, e).None? && FlagsOf(Next(s, e), e.id) == FlagsOf(s, e.id)
  {
  }

  lemma UncountedMovesNothing(s: State, e: Event)
    requires Enabled(s, e) && !StorageEvent(e) && Counted(s, e).None? && (e.id in s.items ==> ItemSorted(s.items[e.id]))
    ensures FlagsOf(Next(s, e), e.id) == if e.CreateRecord? then Flags(true, false, false) else FlagsOf(s, e.id)
  {
  }

  lemma PipelineStepIsCounted(o: Installation, e: Event, n: nat, max: nat)
    requires Sorted(o.pipeline) && StepEnabled(o, Pipeline(e), n)
    ensures var t := StepNext(o, Pipeline(e), n, max);
            && Sorted(t.pipeline)
            && match Counted(o.pipeline, e)
               case None => Counters(t) == Counters(o)
               case Some(c) => Admission.Enabled(Counters(o), c, n) && Counters(t) == Admission.Next(Counters(o), c, n, max)
  {
    PipelineStaysSorted(o.pipeline, e);
    EventMovesOneItem(o.pipeline, e);
    CountsMove(o.pipeline, e);
    if e.id in o.pipeline.items { EnoughToLeave(o.pipeline, e.id); }
  }

  lemma CountsMove(s: State, e: Event)
    requires Enabled(s, e)
    ensures var t := Next(s, e);
            var was, now := FlagsOf(s, e.id), FlagsOf(t, e.id);
            && |WaitingJobs(t)| == |WaitingJobs(s)| + One(now.waiting) - One(was.waiting)
            && |FirstWaiting(t)| == |FirstWaiting(s)| + One(now.first) - One(was.first)
            && |Adding(t)| == |Adding(s)| + One(now.adding) - One(was.adding)
  {
    PipelineCounts(s, e);
  }

  lemma EnoughToLeave(s: State, id: JobId)
    requires id in s.items
    ensures IsFirst(s.items[id]) ==> |FirstWaiting(s)| > 0
    ensures IsWaiting(s.items[id]) && !IsFirst(s.items[id]) ==> |WaitingJobs(s)| > |FirstWaiting(s)|
    ensures IsAdding(s.items[id]) ==> |Adding(s)| > 0
  {
    if IsFirst(s.items[id]) { assert id in FirstWaiting(s); }
    if IsAdding(s.items[id]) { assert id in Adding(s); }
    if IsWaiting(s.items[id]) && !IsFirst(s.items[id]) {
      assert FirstWaiting(s) <= WaitingJobs(s) - {id};
      assert WaitingJobs(s) == FirstWaiting(s) + (WaitingJobs(s) - FirstWaiting(s)) && id in WaitingJobs(s) - FirstWaiting(s);
    }
  }

  /** What a step means for the counters, if anything. */
  function Meaning(o: Installation, st: Step, n: nat): Option<Admission.Event>
    requires StepEnabled(o, st, n)
  {
    match st
    case Arrives => Some(Admission.Arrive)
    case Checks => Some(Admission.Check)
    case CreateThrows => Some(Admission.AddFails)
    case Pipeline(e) => Counted(o.pipeline, e)
  }

  lemma StepIsCounted(o: Installation, st: Step, n: nat, max: nat)
    requires Sorted(o.pipeline) && StepEnabled(o, st, n)
    ensures var t := StepNext(o, st, n, max);
            && Sorted(t.pipeline)
            && match Meaning(o, st, n)
               case None => Counters(t) == Counters(o)
               case Some(c) => Admission.Enabled(Counters(o), c, n) && Counters(t) == Admission.Next(Counters(o), c, n, max)
  {
    if st.Pipeline? { PipelineStepIsCounted(o, st.e, n, max); } else { FirstAreWaiting(o.pipeline); }
  }

  /** Every run of the pipeline with its handlers is a run of the counters. */
  lemma {:induction false} RunsAreCounted(o: Installation, steps: seq<Step>, n: nat, max: nat, t: Installation) returns (events: seq<Admission.Event>)
    requires Sorted(o.pipeline) && StepRuns(o, steps, n, max, t)
    ensures Sorted(t.pipeline) && Admission.Runs(Counters(o), events, n, max, Counters(t))
    decreases |steps|
  {
    if |steps| == 0 {
      return [];
    }
    StepIsCounted(o, steps[0], n, max);
    events := RunsAreCounted(StepNext(o, steps[0], n, max), steps[1..], n, max, t);
    var event := Meaning(o, steps[0], n);
    if event.Some? {
      var rest := events;
      events := [event.value] + rest;
      assert events[1..] == rest;
    }
  }

  /** On the pipeline itself: with at most n overlapping handlers, the jobs that wait for their first attempt never
      exceed the limit plus n - 1. */
  lemma WaitingJobsAreBounded(o: Installation, steps: seq<Step>, n: nat, max: nat, t: Installation)
    requires n > 0 && max > 0 && Initial(o.pipeline) && o.checking == o.passed == 0
    requires StepRuns(o, steps, n, max, t)
    ensures |FirstWaiting(t.pipeline)| <= max + n - 1
  {
    assert FirstWaiting(o.pipeline) == {} && WaitingJobs(o.pipeline) == {} && Adding(o.pipeline) == {};
    var events := RunsAreCounted(o, steps, n, max, t);
    Admission.WaitingIsBounded(events, n, max, Counters(t));
  }
}
