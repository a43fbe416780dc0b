/** From the serial line to execution: when every chunk received is executed, how long a run can be, and what a
    smooth run leaves alone. */
module PipelineDelivery {
  import opened Counting
  import opened Pipeline
  import opened PipelineInvariants
  import opened PipelineTheorems
  import opened PipelineEvents
  import opened PipelineDrain

  // ----- when everything received is executed -----

  /** Every executed node stands for a chunk. */
  ghost predicate Numbering(s: State) {
    forall i :: 0 <= i < |s.hist.executed| ==> s.hist.executed[i].id < |s.hist.chunks|
  }

  /** At rest, with nothing pending, each chunk kept in a node is executed as often as it was kept. */
  lemma AllPicked(s: State, c: seq<bv8>)
    requires Reachable(s) && Quiescent(s) && s.pending == [] && Numbering(s)
    ensures Count(ExecutedChunks(s), c) == Count(s.hist.chunks, c)
  {
    var ids := Ids(s.hist.executed);
    ExecutedPayload(s);
    ReachableInv(s);
    forall j: nat | j < |s.hist.chunks| ensures j in ids {
      var n := s.hist.created[j];
      AtRest(s, n);
      CountNone(s.hist.executed, n);
      var i :| 0 <= i < |s.hist.executed| && s.hist.executed[i] == n;
      assert ids[i] == j;
    }
    CountPicked(s.hist.chunks, ids, c);
  }

  lemma NotExecuted(s: State, n: Node)
    requires Reachable(s) && Quiescent(s) && n in s.pending
    ensures n in s.hist.created && n.id < |s.hist.chunks|
    ensures forall i :: 0 <= i < |s.hist.executed| ==> s.hist.executed[i].id != n.id
  {
    ReachableInv(s);
    var k :| 0 <= k < |s.pending| && s.pending[k] == n;
    CountIn(s.pending, k);
    AtRest(s, n);
    forall i | 0 <= i < |s.hist.executed| ensures s.hist.executed[i].id != n.id {
      var x := s.hist.executed[i];
      CountIn(s.hist.executed, i);
      AtRest(s, x);
    }
  }

  /** At rest, the chunk of a node that is still pending is executed less often than it was kept. */
  lemma OneMissing(s: State)
    requires Reachable(s) && Quiescent(s) && s.pending != [] && Numbering(s)
    ensures exists c :: Count(ExecutedChunks(s), c) < Count(s.hist.chunks, c)
  {
    var n, ids := s.pending[0], Ids(s.hist.executed);
    NotExecuted(s, n);
    ExecutedPayload(s);
    CountMissing(s.hist.chunks, ids, n.id);
    assert Picked(s.hist.chunks, ids) == ExecutedChunks(s);
  }

  /** No chunk was dropped, and the failed reads of the FIFO made up for all the wake-ups that were lost. */
  predicate NothingLost(es: seq<Event>, emptyTests: nat) {
    && Sum(DropsChunk, es) == 0
    && Sum(Swallows, es) + Sum(LosesTrigger, es) + Sum(LosesJob, es) + Sum(FailsToWrap, es) + emptyTests
       == Sum(FailsRead, es)
  }

  /** A run that cannot go on has executed every chunk as often as it was read if and only if nothing was lost. */
  lemma DeliveredIff(producers: nat, workers: nat, consumers: nat, es: seq<Event>)
    requires workers >= 1 && consumers >= 1 && Possible(Init(producers, workers, consumers), es)
    requires forall e :: Enabled(After(Init(producers, workers, consumers), es), e) ==> External(e)
    ensures var s0 := Init(producers, workers, consumers);
      var s := After(s0, es);
      && Numbering(s)
      && ((forall c :: Count(ExecutedChunks(s), c) == Count(Received(es), c))
           <==> NothingLost(es, EmptyTests(s0, es)))
  {
    var s0 := Init(producers, workers, consumers);
    var s := After(s0, es);
    ThreadsKept(s0, es);
    RunIsReachable(producers, workers, consumers, es);
    StuckIsQuiescent(s);
    QuiescentWakeups(s);
    LossesHappened(producers, workers, consumers, es);
    EventCounts(producers, workers, consumers, es);
    ExecutedPayload(s);
    ChunksAlwaysKept(producers, workers, consumers, es);
    DeliveredAtRest(s, es);
  }

  /** The same said of the state at rest. */
  lemma DeliveredAtRest(s: State, es: seq<Event>)
    requires Reachable(s) && Quiescent(s) && Numbering(s) && AllChunksKept(s, es)
    ensures (forall c :: Count(ExecutedChunks(s), c) == Count(Received(es), c))
       <==> s.hist.dropped == [] && s.pending == []
  {
    forall c ensures Count(Received(es), c) == Count(s.hist.chunks, c) + Count(s.hist.dropped, c) {
      assert ChunksKept(s, es, c);
      HeldNone(GotChunk, s.producers, c);
    }
    forall c ensures Count(ExecutedChunks(s), c) <= Count(s.hist.chunks, c) {
      ExecutedPayload(s);
      CountPicked(s.hist.chunks, Ids(s.hist.executed), c);
    }
    if s.pending != [] {
      OneMissing(s);
    } else if s.hist.dropped != [] {
      CountIn(s.hist.dropped, 0);
      var c := s.hist.dropped[0];
      assert Count(ExecutedChunks(s), c) < Count(Received(es), c);
    } else {
      forall c ensures Count(ExecutedChunks(s), c) == Count(Received(es), c) {
        AllPicked(s, c);
        assert Count(s.hist.dropped, c) == 0;
      }
    }
  }

  ghost predicate SameThreads(s: State, t: State) {
    |s.producers| == |t.producers| && |s.workers| == |t.workers| && |s.consumers| == |t.consumers|
  }

  lemma {:induction false} ThreadsKept(s: State, es: seq<Event>)
    requires Possible(s, es)
    ensures SameThreads(s, After(s, es))
    decreases |es|
  {
    if es != [] {
      ThreadsKept(s, es[..|es| - 1]);
    }
  }

  // ----- how long a run can be -----

  /** An upper bound on the steps that one event from outside can cause, itself included. */
  function Causes(e: Event): nat {
    28 * Receives(e) + 22 * FailsRead(e) + Stops(e)
  }

  lemma StepBound(s: State, e: Event)
    requires Enabled(s, e)
    ensures Measure(Apply(s, e)) + 1 <= Measure(s) + Causes(e)
  {
    if External(e) {
      if e.Produce? {
        SumUpdate(ProducerWeight, s.producers, e.p, ProducerApply(s, e.p, e.pstep).producers[e.p]);
      }
    } else {
      Descends(s, e);
    }
  }

  /** No run is longer than 28 steps for each chunk read, 22 for each failed read of the FIFO and one for each
      reader that stops. */
  lemma RunBound(producers: nat, workers: nat, consumers: nat, es: seq<Event>)
    requires Possible(Init(producers, workers, consumers), es)
    ensures |es| <= 28 * Sum(Receives, es) + 22 * Sum(FailsRead, es) + Sum(Stops, es)
  {
    InitMeasure(producers, workers, consumers);
    forall s, fs, e | Bounded(s, fs) && Enabled(s, e) ensures Bounded(Apply(s, e), fs + [e]) {
      StepBound(s, e);
      SumAppend(Receives, fs, e);
      SumAppend(FailsRead, fs, e);
      SumAppend(Stops, fs, e);
    }
    RunInduction(Bounded, Init(producers, workers, consumers), es);
  }

  ghost predicate Bounded(s: State, es: seq<Event>) {
    |es| + Measure(s) <= 28 * Sum(Receives, es) + 22 * Sum(FailsRead, es) + Sum(Stops, es)
  }

  lemma InitMeasure(producers: nat, workers: nat, consumers: nat)
    ensures Measure(Init(producers, workers, consumers)) == 0
  {
    var s := Init(producers, workers, consumers);
    SumZero(ProducerWeight, s.producers);
    SumZero(WorkerWeight, s.workers);
    SumZero(ConsumerWeight, s.consumers);
  }

  // ----- smooth steps -----

  predicate Harmless(e: Event) {
    && Receives(e) == 0 && Stops(e) == 0 && DropsChunk(e) == 0 && LosesTrigger(e) == 0
    && FailsRead(e) == 0 && LosesJob(e) == 0 && FailsToWrap(e) == 0
  }

  /** Nothing was read from the serial line, dropped, or lost to a failing call. */
  ghost predicate NoFailure(es: seq<Event>) {
    forall i :: 0 <= i < |es| ==> Harmless(es[i])
  }

  /** Nothing arrives or fails in a smooth step. */
  lemma SmoothStep(s: State, e: Event)
    requires Smooth(s, e)
    ensures Harmless(e)
  {
  }

  lemma {:induction false} SmoothRunFailsNot(s: State, es: seq<Event>)
    requires Possible(s, es) && SmoothRun(s, es)
    ensures NoFailure(es)
    decreases |es|
  {
    if es != [] {
      var front := es[..|es| - 1];
      SmoothRunFailsNot(s, front);
      SmoothStep(After(s, front), es[|es| - 1]);
      assert forall i :: 0 <= i < |front| ==> es[i] == front[i];
    }
  }

  /** A smooth read empties the FIFO or takes 127 bytes. */
  lemma SmoothRead(s: State, n: nat)
    requires Smooth(s, Allocate(TriggerRead(n)))
    ensures var t := Apply(s, Allocate(TriggerRead(n)));
      t.fifo == 0 || (n == BATCH_SIZE && t.fifo == s.fifo - BATCH_SIZE)
  {
  }

  /** From every reachable state a bounded run in which nothing new arrives and nothing fails reaches rest. */
  lemma DrainsWithoutFailure(s: State)
    requires Reachable(s) && |s.workers| >= 1 && |s.consumers| >= 1
    ensures exists es :: OwnRun(s, es) && NoFailure(es) && Quiescent(After(s, es)) && |es| <= Measure(s)
  {
    AlwaysDrains(s);
    var es :| OwnRun(s, es) && Quiescent(After(s, es)) && |es| <= Measure(s);
    SmoothRunFailsNot(s, es);
  }
}
