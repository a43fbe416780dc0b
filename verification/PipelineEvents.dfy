/** What the events of a run say about the state that it reaches: every counter of the history counts the events
    after which it is named, and every chunk kept is one that was read. */
module PipelineEvents {
  import opened Counting
  import opened Pipeline
  import opened PipelineInvariants
  import opened PipelineTheorems

  function One(b: bool): nat {
    if b then 1 else 0
  }

  /** What holds of a state before any event, and is kept by every event that can happen, holds after every run. */
  lemma {:induction false} RunInduction(holds: (State, seq<Event>) -> bool, s: State, es: seq<Event>)
    requires Possible(s, es) && holds(s, [])
    requires forall t, fs, e :: holds(t, fs) && Enabled(t, e) ==> holds(Apply(t, e), fs + [e])
    ensures holds(After(s, es), es)
    decreases |es|
  {
    if es != [] {
      RunInduction(holds, s, es[..|es| - 1]);
      assert es[..|es| - 1] + [es[|es| - 1]] == es;
    }
  }

  // ----- what one event counts for -----

  function Receives(e: Event): nat { One(e.Produce? && e.pstep.SerialRead?) }
  function Stops(e: Event): nat { One(e.Produce? && e.pstep.SerialStop?) }
  function Creates(e: Event): nat { One(e.Produce? && e.pstep.SerialAlloc?) }
  function DropsChunk(e: Event): nat { One(e.Produce? && e.pstep.SerialAllocFail?) }
  function Links(e: Event): nat { One(e.Produce? && e.pstep.PendingLink?) }
  function Triggers(e: Event): nat { One(e.Produce? && e.pstep.TriggerWrite?) }
  function LosesTrigger(e: Event): nat { One(e.Produce? && e.pstep.TriggerFail?) }

  function BytesRead(e: Event): nat { if e.Allocate? && e.astep.TriggerRead? then e.astep.n else 0 }
  function Swallows(e: Event): nat { if BytesRead(e) == 0 then 0 else BytesRead(e) - 1 }
  function FailsRead(e: Event): nat { One(e == Allocate(TriggerReadFail)) }
  function AddsJob(e: Event): nat { One(e == Allocate(AddWork)) }
  function LosesJob(e: Event): nat { One(e == Allocate(AddWorkFail)) }

  function TakesJob(e: Event): nat { One(e.Work? && e.wstep.TakeJob?) }
  function Wraps(e: Event): nat { One(e.Work? && e.wstep.TaskAlloc?) }
  function FailsToWrap(e: Event): nat { One(e.Work? && e.wstep.TaskAllocFail?) }
  function Pops(e: Event): nat { One(e.Work? && e.wstep.AcquirePop?) }
  function DropsTaskl(e: Event): nat { One(e.Work? && e.wstep.TaskDrop?) }
  function TakesSlot(e: Event): nat { One(e.Work? && e.wstep.SlotWait?) }
  function Schedules(e: Event): nat { One(e.Work? && e.wstep.ScheduleInsert?) }
  function PostsFull(e: Event): nat { One(e.Work? && e.wstep.FullPost?) }

  function TakesToken(e: Event): nat { One(e.Consume? && e.cstep.FullWait?) }
  function Removes(e: Event): nat { One(e.Consume? && e.cstep.RemovePop?) }
  function PostsEmpty(e: Event): nat { One(e.Consume? && e.cstep.EmptyPost?) }
  function Executes(e: Event): nat { One(e.Consume? && e.cstep.Execute?) }
  function Recycles(e: Event): nat { One(e.Consume? && e.cstep.Recycle?) }

  // ----- the counts of a run -----

  /** What the readers did. */
  ghost predicate InputTally(s: State, es: seq<Event>) {
    && |s.hist.created| == Sum(Creates, es) && |s.hist.dropped| == Sum(DropsChunk, es)
    && |s.hist.arrivals| == Sum(Links, es) && s.hist.failedTriggers == Sum(LosesTrigger, es)
  }

  /** What became of the trigger bytes. */
  ghost predicate TriggerTally(s: State, es: seq<Event>) {
    && s.fifo + Sum(BytesRead, es) == Sum(Triggers, es) && s.hist.swallowed == Sum(Swallows, es)
    && s.hist.spurious == Sum(FailsRead, es)
  }

  /** What became of the jobs. */
  ghost predicate JobTally(s: State, es: seq<Event>) {
    && s.jobs + Sum(TakesJob, es) == Sum(AddsJob, es) && s.hist.failedDispatches == Sum(LosesJob, es)
    && s.hist.failedAllocs == Sum(FailsToWrap, es) && s.hist.tasklsAllocated == Sum(Wraps, es)
    && s.hist.tasklsFreed == Sum(DropsTaskl, es) + Sum(Recycles, es)
  }

  /** What became of the nodes. */
  ghost predicate NodeTally(s: State, es: seq<Event>) {
    && |s.hist.popped| == Sum(Pops, es) && |s.hist.scheduled| == Sum(Schedules, es)
    && |s.hist.removed| == Sum(Removes, es) && |s.hist.executed| == Sum(Executes, es)
    && |s.hist.freed| == Sum(Recycles, es)
  }

  /** What became of the semaphores. */
  ghost predicate SemaphoreTally(s: State, es: seq<Event>) {
    && s.semEmpty + Sum(TakesSlot, es) == TASK_MAXNUM + Sum(PostsEmpty, es)
    && s.semFull + Sum(TakesToken, es) == Sum(PostsFull, es)
  }

  ghost predicate Tally(s: State, es: seq<Event>) {
    InputTally(s, es) && TriggerTally(s, es) && JobTally(s, es) && NodeTally(s, es) && SemaphoreTally(s, es)
  }

  // How one event changes the counts.

  ghost predicate CountsInput(s: State, t: State, e: Event) {
    && |t.hist.created| == |s.hist.created| + Creates(e) && |t.hist.dropped| == |s.hist.dropped| + DropsChunk(e)
    && |t.hist.arrivals| == |s.hist.arrivals| + Links(e)
    && t.hist.failedTriggers == s.hist.failedTriggers + LosesTrigger(e)
  }

  ghost predicate CountsTrigger(s: State, t: State, e: Event) {
    && t.fifo + BytesRead(e) == s.fifo + Triggers(e) && t.hist.swallowed == s.hist.swallowed + Swallows(e)
    && t.hist.spurious == s.hist.spurious + FailsRead(e)
  }

  ghost predicate CountsJob(s: State, t: State, e: Event) {
    && t.jobs + TakesJob(e) == s.jobs + AddsJob(e)
    && t.hist.failedDispatches == s.hist.failedDispatches + LosesJob(e)
    && t.hist.failedAllocs == s.hist.failedAllocs + FailsToWrap(e)
    && t.hist.tasklsAllocated == s.hist.tasklsAllocated + Wraps(e)
    && t.hist.tasklsFreed == s.hist.tasklsFreed + DropsTaskl(e) + Recycles(e)
  }

  ghost predicate CountsNode(s: State, t: State, e: Event) {
    && |t.hist.popped| == |s.hist.popped| + Pops(e) && |t.hist.scheduled| == |s.hist.scheduled| + Schedules(e)
    && |t.hist.removed| == |s.hist.removed| + Removes(e) && |t.hist.executed| == |s.hist.executed| + Executes(e)
    && |t.hist.freed| == |s.hist.freed| + Recycles(e)
  }

  ghost predicate CountsSemaphore(s: State, t: State, e: Event) {
    && t.semEmpty + TakesSlot(e) == s.semEmpty + PostsEmpty(e)
    && t.semFull + TakesToken(e) == s.semFull + PostsFull(e)
  }

  ghost predicate Counts(s: State, t: State, e: Event) {
    && CountsInput(s, t, e) && CountsTrigger(s, t, e) && CountsJob(s, t, e) && CountsNode(s, t, e)
    && CountsSemaphore(s, t, e)
  }

  lemma ProducerCounts(s: State, i: nat, e: ProducerStep)
    requires i < |s.producers| && ProducerEnabled(s, s.producers[i], e)
    ensures Counts(s, ProducerApply(s, i, e), Produce(i, e))
  {
  }

  lemma AllocatorCounts(s: State, e: AllocatorStep)
    requires AllocatorEnabled(s, s.allocator, e)
    ensures Counts(s, AllocatorApply(s, e), Allocate(e))
  {
  }

  lemma WorkerCounts(s: State, i: nat, e: WorkerStep)
    requires i < |s.workers| && WorkerEnabled(s, s.workers[i], e)
    ensures Counts(s, WorkerApply(s, i, e), Work(i, e))
  {
  }

  lemma ConsumerCounts(s: State, i: nat, e: ConsumerStep)
    requires i < |s.consumers| && ConsumerEnabled(s, s.consumers[i], e)
    ensures Counts(s, ConsumerApply(s, i, e), Consume(i, e))
  {
  }

  lemma StepCounts(s: State, e: Event)
    requires Enabled(s, e)
    ensures Counts(s, Apply(s, e), e)
  {
    match e
    case Produce(p, ps) => ProducerCounts(s, p, ps);
    case Allocate(a) => AllocatorCounts(s, a);
    case Work(w, ws) => WorkerCounts(s, w, ws);
    case Consume(c, cs) => ConsumerCounts(s, c, cs);
  }

  lemma InputTallyStep(s: State, t: State, es: seq<Event>, e: Event)
    requires InputTally(s, es) && CountsInput(s, t, e)
    ensures InputTally(t, es + [e])
  {
    SumAppend(Creates, es, e);
    SumAppend(DropsChunk, es, e);
    SumAppend(Links, es, e);
    SumAppend(LosesTrigger, es, e);
  }

  lemma TriggerTallyStep(s: State, t: State, es: seq<Event>, e: Event)
    requires TriggerTally(s, es) && CountsTrigger(s, t, e)
    ensures TriggerTally(t, es + [e])
  {
    SumAppend(BytesRead, es, e);
    SumAppend(Triggers, es, e);
    SumAppend(Swallows, es, e);
    SumAppend(FailsRead, es, e);
  }

  lemma JobTallyStep(s: State, t: State, es: seq<Event>, e: Event)
    requires JobTally(s, es) && CountsJob(s, t, e)
    ensures JobTally(t, es + [e])
  {
    SumAppend(TakesJob, es, e);
    SumAppend(AddsJob, es, e);
    SumAppend(LosesJob, es, e);
    SumAppend(FailsToWrap, es, e);
    SumAppend(Wraps, es, e);
    SumAppend(DropsTaskl, es, e);
    SumAppend(Recycles, es, e);
  }

  lemma NodeTallyStep(s: State, t: State, es: seq<Event>, e: Event)
    requires NodeTally(s, es) && CountsNode(s, t, e)
    ensures NodeTally(t, es + [e])
  {
    SumAppend(Pops, es, e);
    SumAppend(Schedules, es, e);
    SumAppend(Removes, es, e);
    SumAppend(Executes, es, e);
    SumAppend(Recycles, es, e);
  }

  lemma SemaphoreTallyStep(s: State, t: State, es: seq<Event>, e: Event)
    requires SemaphoreTally(s, es) && CountsSemaphore(s, t, e)
    ensures SemaphoreTally(t, es + [e])
  {
    SumAppend(TakesSlot, es, e);
    SumAppend(PostsEmpty, es, e);
    SumAppend(TakesToken, es, e);
    SumAppend(PostsFull, es, e);
  }

  lemma TallyStep(s: State, es: seq<Event>, e: Event)
    requires Tally(s, es) && Enabled(s, e)
    ensures Tally(Apply(s, e), es + [e])
  {
    var t := Apply(s, e);
    StepCounts(s, e);
    InputTallyStep(s, t, es, e);
    TriggerTallyStep(s, t, es, e);
    JobTallyStep(s, t, es, e);
    NodeTallyStep(s, t, es, e);
    SemaphoreTallyStep(s, t, es, e);
  }

  /** Every count of the history, the FIFO, the jobs and both semaphores are what the events of the run made them. */
  lemma EventCounts(producers: nat, workers: nat, consumers: nat, es: seq<Event>)
    requires Possible(Init(producers, workers, consumers), es)
    ensures Tally(After(Init(producers, workers, consumers), es), es)
  {
    forall s, fs, e | Tally(s, fs) && Enabled(s, e) ensures Tally(Apply(s, e), fs + [e]) {
      TallyStep(s, fs, e);
    }
    RunInduction(Tally, Init(producers, workers, consumers), es);
  }

  /** The event tests the pending list, locked or not, and finds it empty. */
  predicate FindsEmpty(s: State, e: Event) {
    (e == Allocate(AllocatorTest) || (e.Work? && e.wstep.AcquireTest?)) && s.pending == []
  }

  ghost function EmptyTests(s: State, es: seq<Event>): nat
    requires Possible(s, es)
    decreases |es|
  {
    if es == [] then 0
    else EmptyTests(s, es[..|es| - 1]) + One(FindsEmpty(After(s, es[..|es| - 1]), es[|es| - 1]))
  }

  lemma WastedStep(s: State, e: Event)
    requires Enabled(s, e)
    ensures Apply(s, e).hist.wasted == s.hist.wasted + One(FindsEmpty(s, e))
  {
  }

  /** The wasted wake-ups are those tests. */
  lemma {:induction false} WastedWakeups(s: State, es: seq<Event>)
    requires Possible(s, es)
    ensures After(s, es).hist.wasted == s.hist.wasted + EmptyTests(s, es)
    decreases |es|
  {
    if es != [] {
      WastedWakeups(s, es[..|es| - 1]);
      WastedStep(After(s, es[..|es| - 1]), es[|es| - 1]);
    }
  }

  /** What became of the wake-ups, in terms of what happened: a pending node answers to a swallowed byte, a failed
      trigger, dispatch or allocation, an empty test or a wake-up under way, and not to a failed read. */
  lemma LossesHappened(producers: nat, workers: nat, consumers: nat, es: seq<Event>)
    requires Possible(Init(producers, workers, consumers), es)
    ensures var s0 := Init(producers, workers, consumers);
      var s := After(s0, es);
      |s.pending| + Sum(FailsRead, es) ==
        Wakeups(s) + Sum(Swallows, es) + Sum(LosesTrigger, es) + Sum(LosesJob, es) + Sum(FailsToWrap, es)
        + EmptyTests(s0, es)
  {
    var s0 := Init(producers, workers, consumers);
    EventCounts(producers, workers, consumers, es);
    WastedWakeups(s0, es);
    InvAlways(producers, workers, consumers, es);
  }

  // ----- the bytes received -----

  /** The chunks that the readers read, in order. */
  function Received(es: seq<Event>): seq<seq<bv8>> {
    if es == [] then []
    else
      var front, last := es[..|es| - 1], es[|es| - 1];
      if last.Produce? && last.pstep.SerialRead? then Received(front) + [last.pstep.chunk] else Received(front)
  }

  lemma {:induction false} ReceivedRead(es: seq<Event>, c: seq<bv8>)
    ensures c in Received(es) <==> exists p :: Produce(p, SerialRead(c)) in es
  {
    if es != [] {
      var front, last := es[..|es| - 1], es[|es| - 1];
      ReceivedRead(front, c);
      assert es == front + [last];
      assert forall p :: Produce(p, SerialRead(c)) in es <==>
        Produce(p, SerialRead(c)) in front || last == Produce(p, SerialRead(c));
      if last.Produce? && last == Produce(last.p, SerialRead(c)) {
        assert Produce(last.p, SerialRead(c)) in es;
      }
    }
  }

  function GotChunk(pc: Producer): Hand<seq<bv8>> {
    if pc.PGot? then Hand.One(pc.chunk) else Nothing
  }

  /** Every chunk received is in a reader's buffer, in a node, or dropped. */
  ghost predicate ChunksKept(s: State, es: seq<Event>, c: seq<bv8>) {
    Count(Received(es), c) == Held(GotChunk, s.producers, c) + Count(s.hist.chunks, c) + Count(s.hist.dropped, c)
  }

  lemma ReceivedAppend(es: seq<Event>, e: Event)
    ensures Received(es + [e]) ==
      if e.Produce? && e.pstep.SerialRead? then Received(es) + [e.pstep.chunk] else Received(es)
  {
    assert (es + [e])[..|es|] == es;
  }

  lemma ChunkStep(s: State, es: seq<Event>, p: nat, e: ProducerStep, c: seq<bv8>)
    requires ChunksKept(s, es, c) && Enabled(s, Produce(p, e))
    ensures ChunksKept(ProducerApply(s, p, e), es + [Produce(p, e)], c)
  {
    var t := ProducerApply(s, p, e);
    ReceivedAppend(es, Produce(p, e));
    HeldUpdate(GotChunk, s.producers, p, t.producers[p], c);
    match e
    case SerialRead(chunk) => CountAppend(Received(es), chunk, c);
    case SerialAlloc(_) => CountAppend(s.hist.chunks, s.producers[p].chunk, c);
    case SerialAllocFail => CountAppend(s.hist.dropped, s.producers[p].chunk, c);
    case _ =>
  }

  ghost predicate AllChunksKept(s: State, es: seq<Event>) {
    forall c :: ChunksKept(s, es, c)
  }

  lemma AllChunksStep(s: State, es: seq<Event>, e: Event)
    requires AllChunksKept(s, es) && Enabled(s, e)
    ensures AllChunksKept(Apply(s, e), es + [e])
  {
    ReceivedAppend(es, e);
    forall c ensures ChunksKept(Apply(s, e), es + [e], c) {
      assert ChunksKept(s, es, c);
      if e.Produce? {
        ChunkStep(s, es, e.p, e.pstep, c);
      }
    }
  }

  lemma ChunksAlwaysKept(producers: nat, workers: nat, consumers: nat, es: seq<Event>)
    requires Possible(Init(producers, workers, consumers), es)
    ensures AllChunksKept(After(Init(producers, workers, consumers), es), es)
  {
    var s0 := Init(producers, workers, consumers);
    forall c ensures ChunksKept(s0, [], c) {
      HeldNone(GotChunk, s0.producers, c);
    }
    forall s, fs, e | AllChunksKept(s, fs) && Enabled(s, e) ensures AllChunksKept(Apply(s, e), fs + [e]) {
      AllChunksStep(s, fs, e);
    }
    RunInduction(AllChunksKept, s0, es);
  }

  // ----- from the serial line to execution -----

  ghost function Ids(nodes: seq<Node>): (r: seq<nat>)
    ensures |r| == |nodes| && forall i :: 0 <= i < |r| ==> r[i] == nodes[i].id
  {
    seq(|nodes|, i requires 0 <= i < |nodes| => nodes[i].id)
  }

  /** The chunks behind the executed nodes, in order of execution. */
  ghost function ExecutedChunks(s: State): (r: seq<seq<bv8>>)
    requires forall i :: 0 <= i < |s.hist.executed| ==> s.hist.executed[i].id < |s.hist.chunks|
    ensures |r| == |s.hist.executed|
    ensures forall i :: 0 <= i < |r| ==> r[i] == s.hist.chunks[s.hist.executed[i].id]
  {
    Picked(s.hist.chunks, Ids(s.hist.executed))
  }

  /** Each executed command starts with a chunk that was read from the serial line, followed by zeros up to 100
      bytes, and no chunk is executed more often than it was read. */
  lemma ExecutedWasReceived(producers: nat, workers: nat, consumers: nat, es: seq<Event>)
    requires Possible(Init(producers, workers, consumers), es)
    ensures var s := After(Init(producers, workers, consumers), es);
      && (forall i :: 0 <= i < |s.hist.executed| ==> s.hist.executed[i].id < |s.hist.chunks|)
      && (forall i :: 0 <= i < |s.hist.executed| ==>
           StartsWith(s.hist.executed[i].command, ExecutedChunks(s)[i])
           && exists p :: Produce(p, SerialRead(ExecutedChunks(s)[i])) in es)
      && forall c :: Count(ExecutedChunks(s), c) <= Count(Received(es), c)
  {
    var s := After(Init(producers, workers, consumers), es);
    RunIsReachable(producers, workers, consumers, es);
    ExecutedPayload(s);
    ChunksAlwaysKept(producers, workers, consumers, es);
    forall c ensures Count(ExecutedChunks(s), c) <= Count(s.hist.chunks, c) <= Count(Received(es), c) {
      CountPicked(s.hist.chunks, Ids(s.hist.executed), c);
      assert ChunksKept(s, es, c);
    }
    forall i | 0 <= i < |s.hist.executed| ensures exists p :: Produce(p, SerialRead(ExecutedChunks(s)[i])) in es {
      var c := ExecutedChunks(s)[i];
      CountIn(ExecutedChunks(s), i);
      CountNone(Received(es), c);
      ReceivedRead(es, c);
    }
  }

  lemma RunIsReachable(producers: nat, workers: nat, consumers: nat, es: seq<Event>)
    requires Possible(Init(producers, workers, consumers), es)
    ensures Reachable(After(Init(producers, workers, consumers), es))
  {
    ReachableInit(producers, workers, consumers);
    RunReachable(Init(producers, workers, consumers), es);
  }
}
