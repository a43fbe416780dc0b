/** What the pipeline guarantees over every run: no lost wake-up beyond a counted bound, no overrun
    of the schedule list, one owner per node, the order of execution, and the commands executed. */
module PipelineTheorems {
  import opened Counting
  import opened Pipeline
  import opened PipelineInvariants

  /** A set of states that no step leaves. */
  ghost predicate Closed(states: State -> bool) {
    forall s, e :: states(s) && Enabled(s, e) ==> states(Apply(s, e))
  }

  /** A set of states that holds every state `task_init` can leave. */
  ghost predicate HoldsInit(states: State -> bool) {
    forall producers: nat, workers: nat, consumers: nat :: states(Init(producers, workers, consumers))
  }

  /** `s` is in every set of states that the program starts in and cannot leave, whatever the number of threads. */
  ghost predicate Reachable(s: State) {
    forall states: State -> bool :: Closed(states) && HoldsInit(states) ==> states(s)
  }

  lemma ReachableInit(producers: nat, workers: nat, consumers: nat)
    ensures Reachable(Init(producers, workers, consumers))
  {
  }

  lemma ReachableStep(s: State, e: Event)
    requires Reachable(s) && Enabled(s, e)
    ensures Reachable(Apply(s, e))
  {
  }

  /** Every reachable state satisfies every invariant. */
  lemma ReachableInv(s: State)
    requires Reachable(s)
    ensures Inv(s)
  {
    forall t, e | Inv(t) && Enabled(t, e) ensures Inv(Apply(t, e)) {
      InvStep(t, e);
    }
    forall producers: nat, workers: nat, consumers: nat ensures Inv(Init(producers, workers, consumers)) {
      InvInit(producers, workers, consumers);
    }
    assert Closed(Inv) && HoldsInit(Inv);
  }

  /** `s` is the state after some run from `task_init`, with any number of threads. */
  ghost predicate AfterRun(s: State) {
    exists producers: nat, workers: nat, consumers: nat, es ::
      Possible(Init(producers, workers, consumers), es) && s == After(Init(producers, workers, consumers), es)
  }

  lemma AfterRunInit(producers: nat, workers: nat, consumers: nat)
    ensures AfterRun(Init(producers, workers, consumers))
  {
    var s := Init(producers, workers, consumers);
    assert Possible(s, []) && After(s, []) == s;
  }

  lemma AfterRunStep(s: State, e: Event)
    requires AfterRun(s) && Enabled(s, e)
    ensures AfterRun(Apply(s, e))
  {
    var producers: nat, workers: nat, consumers: nat, es :|
      Possible(Init(producers, workers, consumers), es) && s == After(Init(producers, workers, consumers), es);
    var fs := es + [e];
    assert fs[..|fs| - 1] == es && fs[|fs| - 1] == e;
    assert Possible(Init(producers, workers, consumers), fs);
  }

  lemma AfterRunClosed()
    ensures Closed(AfterRun) && HoldsInit(AfterRun)
  {
    forall s, e | AfterRun(s) && Enabled(s, e) ensures AfterRun(Apply(s, e)) {
      AfterRunStep(s, e);
    }
    forall producers: nat, workers: nat, consumers: nat ensures AfterRun(Init(producers, workers, consumers)) {
      AfterRunInit(producers, workers, consumers);
    }
  }

  lemma {:induction false} RunReachable(s: State, es: seq<Event>)
    requires Reachable(s) && Possible(s, es)
    ensures Reachable(After(s, es))
  {
    if es != [] {
      RunReachable(s, es[..|es| - 1]);
      ReachableStep(After(s, es[..|es| - 1]), es[|es| - 1]);
    }
  }

  lemma AfterRunReachable(s: State)
    requires AfterRun(s)
    ensures Reachable(s)
  {
    var producers: nat, workers: nat, consumers: nat, es :|
      Possible(Init(producers, workers, consumers), es) && s == After(Init(producers, workers, consumers), es);
    ReachableInit(producers, workers, consumers);
    RunReachable(Init(producers, workers, consumers), es);
  }

  /** The reachable states are exactly the states after the runs. */
  lemma ReachableByRun(s: State)
    ensures Reachable(s) <==> AfterRun(s)
  {
    AfterRunClosed();
    if AfterRun(s) {
      AfterRunReachable(s);
    }
  }

  // ----- lost tasks -----

  /** Nothing is under way: every thread is at the top of its loop or stopped, and nothing is queued for it. */
  ghost predicate Quiescent(s: State) {
    && (forall i :: 0 <= i < |s.producers| ==> s.producers[i].PIdle? || s.producers[i].PStopped?)
    && s.allocator.AWait? && s.fifo == 0 && s.jobs == 0
    && (forall i :: 0 <= i < |s.workers| ==> s.workers[i].WIdle?)
    && (forall i :: 0 <= i < |s.consumers| ==> s.consumers[i].CWait?)
    && s.schedule == [] && s.semFull == 0
  }

  /** The pending nodes are counted exactly by the wake-ups under way, swallowed, failed, wasted and spurious. */
  lemma PendingBalance(s: State)
    requires Reachable(s)
    ensures |s.pending| + s.hist.spurious == Wakeups(s) + LostWakeups(s) + s.hist.wasted
    ensures s.hist.wasted <= s.hist.spurious
    ensures |s.pending| <= Wakeups(s) + LostWakeups(s)
  {
    ReachableInv(s);
  }

  lemma QuiescentWakeups(s: State)
    requires Quiescent(s)
    ensures Wakeups(s) == 0
  {
    SumZero(OwedTrigger, s.producers);
    SumZero(OpenJob, s.workers);
  }

  /** While no read of the FIFO has failed, no thread has ever found the pending list empty, and what is left
      at rest is exactly what was swallowed or failed: every byte beyond the first of a read strands one task. */
  lemma StrandedExactly(s: State)
    requires Reachable(s) && s.hist.spurious == 0
    ensures s.hist.wasted == 0 && |s.pending| == Wakeups(s) + LostWakeups(s)
    ensures !s.allocator.AWait? ==> s.pending != []
    ensures forall w :: 0 <= w < |s.workers| ==> !s.workers[w].WNone?
    ensures forall w :: 0 <= w < |s.workers| && s.workers[w].WInPend? ==> s.pending != []
    ensures Quiescent(s) ==> |s.pending| == LostWakeups(s)
    ensures Quiescent(s) ==> (s.pending == [] <==> LostWakeups(s) == 0)
  {
    ReachableInv(s);
    forall w | 0 <= w < |s.workers| && OpenJob(s.workers[w]) > 0 ensures s.pending != [] {
      SumAtLeast(OpenJob, s.workers, w);
    }
    if Quiescent(s) {
      QuiescentWakeups(s);
    }
  }

  // ----- mutual exclusion -----

  /** No two threads are ever in the critical sections of one lock. */
  lemma MutualExclusion(s: State)
    requires Reachable(s)
    ensures forall p, q :: 0 <= p < q < |s.producers| ==>
      !ProducerInPend(s.producers[p]) || !ProducerInPend(s.producers[q])
    ensures forall v, w :: 0 <= v < w < |s.workers| ==> !WorkerInPend(s.workers[v]) || !WorkerInPend(s.workers[w])
    ensures forall v, w :: 0 <= v < w < |s.workers| ==> !WorkerInSch(s.workers[v]) || !WorkerInSch(s.workers[w])
    ensures forall c, d :: 0 <= c < d < |s.consumers| ==>
      !ConsumerInSch(s.consumers[c]) || !ConsumerInSch(s.consumers[d])
    ensures forall p, w :: 0 <= p < |s.producers| && 0 <= w < |s.workers| ==>
      !ProducerInPend(s.producers[p]) || !WorkerInPend(s.workers[w])
    ensures forall w, c :: 0 <= w < |s.workers| && 0 <= c < |s.consumers| ==>
      !WorkerInSch(s.workers[w]) || !ConsumerInSch(s.consumers[c])
  {
    ReachableInv(s);
  }

  // ----- the bounded buffer -----

  lemma BoundedBuffer(s: State)
    requires Reachable(s)
    ensures |s.schedule| <= TASK_MAXNUM && s.semEmpty <= TASK_MAXNUM && s.semFull <= |s.schedule|
    ensures s.semEmpty + Sum(ReservedSlot, s.workers) + |s.schedule| + Sum(UnpostedRemoval, s.consumers) == TASK_MAXNUM
    ensures |s.schedule| == s.semFull + Sum(TakenToken, s.consumers) + Sum(UnpostedInsert, s.workers)
    ensures forall i :: 0 <= i < |s.consumers| ==> !s.consumers[i].CEmptyExit?
    ensures forall i :: 0 <= i < |s.consumers| && s.consumers[i].CInSch? ==> s.schedule != []
  {
    ReachableInv(s);
    forall i | 0 <= i < |s.consumers| && s.consumers[i].CInSch? ensures s.schedule != [] {
      SumAtLeast(TakenToken, s.consumers, i);
    }
  }

  // ----- ownership -----

  /** How often `n` is found over all the places a node can be. */
  function Places(s: State, n: Node): nat {
    Held(InProducer, s.producers, n) + Count(s.pending, n) + Held(InWorker, s.workers, n) + Count(s.schedule, n)
    + Held(NotExecuted, s.consumers, n) + Held(NotFreed, s.consumers, n) + Count(s.hist.freed, n)
  }

  lemma {:induction false} NumberedCount(created: seq<Node>, n: Node)
    requires Numbered(created)
    ensures Count(created, n) == if n in created then 1 else 0
  {
    if created != [] {
      var front, last := created[..|created| - 1], created[|created| - 1];
      NumberedCount(front, n);
      assert created == front + [last];
      assert last !in front;
    }
  }

  /** A created node is in exactly one place, and nothing else is anywhere. */
  lemma OneOwner(s: State, n: Node)
    requires Reachable(s)
    ensures Places(s, n) == if n in s.hist.created then 1 else 0
    ensures Count(s.hist.executed, n) <= 1 && Count(s.hist.freed, n) <= Count(s.hist.executed, n)
  {
    ReachableInv(s);
    assert Hands(s, n);
    NumberedCount(s.hist.created, n);
    CountConcat(s.hist.popped, s.pending, n);
    CountConcat(s.hist.removed, s.schedule, n);
  }

  /** No `taskl` is leaked: each one allocated is freed, in the schedule list, or with the one thread whose
      local variable it is; at rest all are freed. */
  lemma TasklBalance(s: State)
    requires Reachable(s)
    ensures s.hist.tasklsAllocated
         == s.hist.tasklsFreed + Sum(HoldsTaskl, s.workers) + |s.schedule| + Sum(CarriesTaskl, s.consumers)
    ensures Quiescent(s) ==> s.hist.tasklsAllocated == s.hist.tasklsFreed
  {
    ReachableInv(s);
    if Quiescent(s) {
      SumZero(HoldsTaskl, s.workers);
      SumZero(CarriesTaskl, s.consumers);
    }
  }

  // ----- order -----

  /** Workers take nodes in arrival order, and what they took is scheduled or in a worker's hand;
      scheduler threads take nodes in scheduled order, and what they took is executed or in hand. */
  lemma ArrivalOrder(s: State, n: Node)
    requires Reachable(s)
    ensures s.hist.popped <= s.hist.arrivals && s.hist.removed <= s.hist.scheduled
    ensures Count(s.hist.popped, n) == Count(s.hist.scheduled, n) + Held(InWorker, s.workers, n)
    ensures Count(s.hist.removed, n) == Count(s.hist.executed, n) + Held(NotExecuted, s.consumers, n)
  {
    ReachableInv(s);
    assert Hands(s, n);
  }

  /** Scheduling is never more than one task per worker behind, nor execution more than one per scheduler thread. */
  lemma LagBound(s: State)
    requires Reachable(s)
    ensures |s.hist.scheduled| <= |s.hist.popped| <= |s.hist.scheduled| + |s.workers|
    ensures |s.hist.executed| <= |s.hist.removed| <= |s.hist.executed| + |s.consumers|
  {
    ReachableInv(s);
    SumAtMost(WorkerLoad, s.workers);
    SumAtMost(ConsumerLoad, s.consumers);
  }

  /** One worker schedules in arrival order, and one scheduler thread executes in scheduled order. */
  lemma SingleThreadOrder(s: State)
    requires Reachable(s)
    ensures |s.workers| == 1 ==> s.hist.scheduled <= s.hist.arrivals
    ensures |s.consumers| == 1 ==> s.hist.executed <= s.hist.scheduled
    ensures |s.workers| == 1 && |s.consumers| == 1 ==> s.hist.executed <= s.hist.arrivals
  {
    ReachableInv(s);
    var h := s.hist;
    if |s.workers| == 1 {
      assert h.scheduled <= h.popped <= h.arrivals;
    }
    if |s.consumers| == 1 {
      assert h.executed <= h.removed <= h.scheduled;
    }
  }

  // ----- payload -----

  /** Every executed command starts with one chunk, which zeros follow up to 100 bytes, and none is executed twice. */
  lemma ExecutedPayload(s: State)
    requires Reachable(s)
    ensures |s.hist.chunks| == |s.hist.created|
    ensures forall i :: 0 <= i < |s.hist.executed| ==>
      && s.hist.executed[i].id < |s.hist.chunks|
      && var command, chunk := s.hist.executed[i].command, s.hist.chunks[s.hist.executed[i].id];
      && 1 <= |chunk| <= CHUNK_SIZE && |command| == DATA_SIZE
      && command[..|chunk|] == chunk && forall j :: |chunk| <= j < CHUNK_SIZE ==> command[j] == 0
    ensures forall i, j :: 0 <= i < j < |s.hist.executed| ==> s.hist.executed[i].id != s.hist.executed[j].id
  {
    ReachableInv(s);
    var x, created := s.hist.executed, s.hist.created;
    forall i | 0 <= i < |x| ensures x[i] in created {
      OneOwner(s, x[i]);
      CountIn(x, i);
      assert Hands(s, x[i]);
    }
    forall i, j | 0 <= i < j < |x| ensures x[i].id != x[j].id {
      OneOwner(s, x[i]);
      if x[i].id == x[j].id {
        assert x[i] in created && x[j] in created;
        CountIn(x, i);
      }
    }
  }
}
