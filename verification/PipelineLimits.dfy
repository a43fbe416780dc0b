/** Runs that show the guarantees of the pipeline to be the best possible: coalesced reads strand exactly
    as many tasks as bytes are swallowed, and each order holds for exactly the thread counts that keep it. */
module PipelineLimits {
  import opened Counting
  import opened Pipeline
  import opened PipelineInvariants
  import opened PipelineTheorems

  ghost predicate Threads(s: State, producers: nat, workers: nat, consumers: nat) {
    |s.producers| == producers && |s.workers| == workers && |s.consumers| == consumers
  }

  /** Nothing under way, no lock held, the schedule list empty. */
  ghost predicate Resting(s: State) {
    && (forall p :: 0 <= p < |s.producers| ==> s.producers[p] == PIdle)
    && (forall w :: 0 <= w < |s.workers| ==> s.workers[w] == WIdle)
    && (forall c :: 0 <= c < |s.consumers| ==> s.consumers[c] == CWait)
    && s.allocator == AWait && s.fifo == 0 && s.jobs == 0
    && s.schedule == [] && s.semFull == 0 && s.semEmpty == TASK_MAXNUM
    && s.pendLock == Free && s.schLock == Free
  }

  // ----- pieces of runs -----

  lemma Step(s: State, e: Event) returns (t: State)
    requires Reachable(s) && Enabled(s, e)
    ensures t == Apply(s, e) && Reachable(t)
  {
    ReachableStep(s, e);
    t := Apply(s, e);
  }

  /** A chunk is read and copied into a fresh node. */
  lemma Receive(s: State) returns (t: State)
    requires Reachable(s) && |s.producers| >= 1 && s.producers[0] == PIdle
    ensures Reachable(t) && |t.hist.created| == |s.hist.created| + 1
    ensures var n := t.hist.created[|s.hist.created|];
      && n.id == |s.hist.created|
      && t == s.(producers := s.producers[0 := PHolding(n)],
                 hist := s.hist.(chunks := t.hist.chunks, created := t.hist.created))
  {
    var s1 := Step(s, Produce(0, SerialRead([1 as bv8])));
    t := Step(s1, Produce(0, SerialAlloc(seq(DATA_SIZE - CHUNK_SIZE, _ => 0 as bv8))));
  }

  lemma Link(s: State) returns (t: State)
    requires Reachable(s) && |s.producers| >= 1 && s.producers[0].PHolding? && s.pendLock == Free
    ensures Reachable(t)
    ensures var n := s.producers[0].node;
      t == s.(producers := s.producers[0 := PTrigger], pending := s.pending + [n],
              hist := s.hist.(arrivals := s.hist.arrivals + [n]))
  {
    var s1 := Step(s, Produce(0, PendingLock));
    var s2 := Step(s1, Produce(0, PendingLink));
    t := Step(s2, Produce(0, PendingUnlock));
  }

  /** One chunk arrives, is linked and triggered. */
  lemma Arrive(s: State) returns (t: State)
    requires Reachable(s) && |s.producers| >= 1 && s.producers[0] == PIdle && s.pendLock == Free && s.fifo < FIFO_SIZE
    ensures Reachable(t) && |t.hist.created| == |s.hist.created| + 1
    ensures var n := t.hist.created[|s.hist.created|];
      && n.id == |s.hist.created|
      && t == s.(pending := s.pending + [n], fifo := s.fifo + 1,
                 hist := s.hist.(chunks := t.hist.chunks, created := t.hist.created, arrivals := s.hist.arrivals + [n]))
  {
    var s1 := Receive(s);
    var s2 := Link(s1);
    t := Step(s2, Produce(0, TriggerWrite));
    assert t.producers == s.producers;
  }

  /** The allocator reads `n` bytes at once, sees the list non-empty and adds one job. */
  lemma Dispatch(s: State, n: nat) returns (t: State)
    requires Reachable(s) && s.allocator == AWait && 1 <= n <= BATCH_SIZE && n <= s.fifo && s.pending != []
    ensures Reachable(t)
    ensures t == s.(fifo := s.fifo - n, jobs := s.jobs + 1, hist := s.hist.(swallowed := s.hist.swallowed + (n - 1)))
  {
    var s1 := Step(s, Allocate(TriggerRead(n)));
    var s2 := Step(s1, Allocate(AllocatorTest));
    t := Step(s2, Allocate(AddWork));
  }

  lemma Begin(s: State, w: nat) returns (t: State)
    requires Reachable(s) && w < |s.workers| && s.workers[w] == WIdle && s.jobs > 0
    ensures Reachable(t)
    ensures t == s.(workers := s.workers[w := WWantPend], jobs := s.jobs - 1,
                    hist := s.hist.(tasklsAllocated := s.hist.tasklsAllocated + 1))
  {
    var s1 := Step(s, Work(w, TakeJob));
    t := Step(s1, Work(w, TaskAlloc));
  }

  lemma Look(s: State, w: nat) returns (t: State)
    requires Reachable(s) && w < |s.workers| && s.workers[w] == WWantPend && s.pendLock == Free && s.pending != []
    ensures Reachable(t)
    ensures t == s.(workers := s.workers[w := WFound], pendLock := HeldByWorker(w))
  {
    var s1 := Step(s, Work(w, AcquireLock));
    t := Step(s1, Work(w, AcquireTest));
  }

  lemma Pop(s: State, w: nat) returns (t: State)
    requires Reachable(s) && w < |s.workers| && s.workers[w] == WFound && s.pending != []
    ensures Reachable(t)
    ensures t == s.(workers := s.workers[w := WHolding(s.pending[0])], pending := s.pending[1..], pendLock := Free,
                    hist := s.hist.(popped := s.hist.popped + [s.pending[0]]))
  {
    var s1 := Step(s, Work(w, AcquirePop));
    t := Step(s1, Work(w, AcquireUnlock));
  }

  /** A worker takes a job and the first pending node. */
  lemma Take(s: State, w: nat) returns (t: State)
    requires Reachable(s) && w < |s.workers| && s.workers[w] == WIdle && s.jobs > 0
    requires s.pendLock == Free && s.pending != []
    ensures Reachable(t)
    ensures t == s.(workers := s.workers[w := WHolding(s.pending[0])], jobs := s.jobs - 1, pending := s.pending[1..],
                    hist := s.hist.(popped := s.hist.popped + [s.pending[0]],
                                    tasklsAllocated := s.hist.tasklsAllocated + 1))
  {
    var s1 := Begin(s, w);
    var s2 := Look(s1, w);
    t := Pop(s2, w);
  }

  lemma Reserve(s: State, w: nat) returns (t: State)
    requires Reachable(s) && w < |s.workers| && s.workers[w].WHolding? && s.semEmpty > 0 && s.schLock == Free
    ensures Reachable(t)
    ensures t == s.(workers := s.workers[w := WInSch(s.workers[w].node)], semEmpty := s.semEmpty - 1,
                    schLock := HeldByWorker(w))
  {
    var s1 := Step(s, Work(w, SlotWait));
    t := Step(s1, Work(w, ScheduleLock));
  }

  lemma Place(s: State, w: nat) returns (t: State)
    requires Reachable(s) && w < |s.workers| && s.workers[w].WInSch?
    ensures Reachable(t)
    ensures var n := s.workers[w].node;
      t == s.(workers := s.workers[w := WPosting], schedule := s.schedule + [n], schLock := Free,
              hist := s.hist.(scheduled := s.hist.scheduled + [n]))
  {
    var s1 := Step(s, Work(w, ScheduleInsert));
    t := Step(s1, Work(w, ScheduleUnlock));
  }

  /** A worker schedules the node in its hand. */
  lemma Hand(s: State, w: nat) returns (t: State)
    requires Reachable(s) && w < |s.workers| && s.workers[w].WHolding? && s.semEmpty > 0 && s.schLock == Free
    ensures Reachable(t)
    ensures var n := s.workers[w].node;
      t == s.(workers := s.workers[w := WIdle], schedule := s.schedule + [n], semEmpty := s.semEmpty - 1,
              semFull := s.semFull + 1, hist := s.hist.(scheduled := s.hist.scheduled + [n]))
  {
    var s1 := Reserve(s, w);
    var s2 := Place(s1, w);
    t := Step(s2, Work(w, FullPost));
  }

  /** A worker carries the first pending node over to the schedule list. */
  lemma Carry(s: State, w: nat) returns (t: State)
    requires Reachable(s) && w < |s.workers| && s.workers[w] == WIdle && s.jobs > 0
    requires s.pendLock == Free && s.pending != [] && s.semEmpty > 0 && s.schLock == Free
    ensures Reachable(t)
    ensures var n := s.pending[0];
      t == s.(jobs := s.jobs - 1, pending := s.pending[1..], schedule := s.schedule + [n],
              semEmpty := s.semEmpty - 1, semFull := s.semFull + 1,
              hist := s.hist.(popped := s.hist.popped + [n], scheduled := s.hist.scheduled + [n],
                              tasklsAllocated := s.hist.tasklsAllocated + 1))
  {
    var s1 := Take(s, w);
    t := Hand(s1, w);
    assert t.workers == s.workers;
  }

  lemma Reach(s: State, c: nat) returns (t: State)
    requires Reachable(s) && c < |s.consumers| && s.consumers[c] == CWait && s.semFull > 0 && s.schLock == Free
    ensures Reachable(t)
    ensures t == s.(consumers := s.consumers[c := CInSch], semFull := s.semFull - 1, schLock := HeldByConsumer(c))
  {
    var s1 := Step(s, Consume(c, FullWait));
    t := Step(s1, Consume(c, RemoveLock));
  }

  lemma Remove(s: State, c: nat) returns (t: State)
    requires Reachable(s) && c < |s.consumers| && s.consumers[c] == CInSch && s.schedule != []
    ensures Reachable(t)
    ensures var n := s.schedule[0];
      t == s.(consumers := s.consumers[c := CPosting(n)], schedule := s.schedule[1..], schLock := Free,
              hist := s.hist.(removed := s.hist.removed + [n]))
  {
    var s1 := Step(s, Consume(c, RemoveTest));
    var s2 := Step(s1, Consume(c, RemovePop));
    t := Step(s2, Consume(c, RemoveUnlock));
  }

  lemma Fetch(s: State, c: nat) returns (t: State)
    requires Reachable(s) && c < |s.consumers| && s.consumers[c] == CWait
    requires s.semFull > 0 && s.schLock == Free && s.schedule != []
    ensures Reachable(t)
    ensures var n := s.schedule[0];
      t == s.(consumers := s.consumers[c := CPosting(n)], schedule := s.schedule[1..], semFull := s.semFull - 1,
              hist := s.hist.(removed := s.hist.removed + [n]))
  {
    var s1 := Reach(s, c);
    t := Remove(s1, c);
  }

  lemma Finish(s: State, c: nat) returns (t: State)
    requires Reachable(s) && c < |s.consumers| && s.consumers[c].CPosting?
    ensures Reachable(t)
    ensures var n := s.consumers[c].node;
      t == s.(consumers := s.consumers[c := CWait], semEmpty := s.semEmpty + 1,
              hist := s.hist.(executed := s.hist.executed + [n], freed := s.hist.freed + [n],
                              tasklsFreed := s.hist.tasklsFreed + 1))
  {
    var s1 := Step(s, Consume(c, EmptyPost));
    var s2 := Step(s1, Consume(c, Execute));
    t := Step(s2, Consume(c, Recycle));
  }

  /** A scheduler thread executes and frees the first scheduled node. */
  lemma Run(s: State, c: nat) returns (t: State)
    requires Reachable(s) && c < |s.consumers| && s.consumers[c] == CWait
    requires s.semFull > 0 && s.schLock == Free && s.schedule != []
    ensures Reachable(t)
    ensures var n := s.schedule[0];
      t == s.(schedule := s.schedule[1..], semFull := s.semFull - 1, semEmpty := s.semEmpty + 1,
              hist := s.hist.(removed := s.hist.removed + [n], executed := s.hist.executed + [n],
                              freed := s.hist.freed + [n], tasklsFreed := s.hist.tasklsFreed + 1))
  {
    var s1 := Fetch(s, c);
    t := Finish(s1, c);
    assert t.consumers == s.consumers;
  }

  // ----- every combination of losses -----

  /** How many wake-ups of each kind a run has lost, gained and wasted. */
  datatype Losses = Losses(
    swallowed: nat, failedTriggers: nat, failedDispatches: nat, failedAllocs: nat, spurious: nat, wasted: nat)

  function LossesOf(s: State): Losses {
    Losses(s.hist.swallowed, s.hist.failedTriggers, s.hist.failedDispatches, s.hist.failedAllocs,
           s.hist.spurious, s.hist.wasted)
  }

  function Lost(l: Losses): nat {
    l.swallowed + l.failedTriggers + l.failedDispatches + l.failedAllocs
  }

  /** How many threads of each kind there are. */
  datatype Crew = Crew(producers: nat, workers: nat, consumers: nat)

  /** `s` rests with `pending` nodes left and the counts `l`. */
  ghost predicate Rests(crew: Crew, s: State, pending: int, l: Losses) {
    && crew.producers >= 1 && crew.workers >= 1 && crew.consumers >= 1
    && Reachable(s) && Resting(s) && Threads(s, crew.producers, crew.workers, crew.consumers)
    && |s.pending| == pending && LossesOf(s) == l
  }

  /** Two chunks arrive and their trigger bytes are read as one batch: one more task is left behind. */
  lemma Swallow(crew: Crew, s: State, n: nat, l: Losses) returns (t: State)
    requires Rests(crew, s, n, l)
    ensures Rests(crew, t, n + 1, l.(swallowed := l.swallowed + 1))
  {
    var s1 := Arrive(s);
    var s2 := Arrive(s1);
    var s3 := Dispatch(s2, 2);
    var s4 := Carry(s3, 0);
    t := Run(s4, 0);
  }

  lemma FailTrigger(crew: Crew, s: State, n: nat, l: Losses) returns (t: State)
    requires Rests(crew, s, n, l)
    ensures Rests(crew, t, n + 1, l.(failedTriggers := l.failedTriggers + 1))
  {
    var s1 := Receive(s);
    var s2 := Link(s1);
    t := Step(s2, Produce(0, TriggerFail));
    assert t.producers == s.producers;
  }

  lemma FailDispatch(crew: Crew, s: State, n: nat, l: Losses) returns (t: State)
    requires Rests(crew, s, n, l)
    ensures Rests(crew, t, n + 1, l.(failedDispatches := l.failedDispatches + 1))
  {
    var s1 := Arrive(s);
    var s2 := Step(s1, Allocate(TriggerRead(1)));
    var s3 := Step(s2, Allocate(AllocatorTest));
    t := Step(s3, Allocate(AddWorkFail));
  }

  lemma FailAlloc(crew: Crew, s: State, n: nat, l: Losses) returns (t: State)
    requires Rests(crew, s, n, l)
    ensures Rests(crew, t, n + 1, l.(failedAllocs := l.failedAllocs + 1))
  {
    var s1 := Arrive(s);
    var s2 := Dispatch(s1, 1);
    var s3 := Step(s2, Work(0, TakeJob));
    t := Step(s3, Work(0, TaskAllocFail));
  }

  /** A failed read of the FIFO with nothing pending is wasted. */
  lemma Waste(crew: Crew, s: State, l: Losses) returns (t: State)
    requires Rests(crew, s, 0, l)
    ensures Rests(crew, t, 0, l.(spurious := l.spurious + 1, wasted := l.wasted + 1))
  {
    var s1 := Step(s, Allocate(TriggerReadFail));
    t := Step(s1, Allocate(AllocatorTest));
  }

  /** With a node pending it brings one to execution. */
  lemma Recover(crew: Crew, s: State, n: nat, l: Losses) returns (t: State)
    requires Rests(crew, s, n, l) && n > 0
    ensures Rests(crew, t, n - 1, l.(spurious := l.spurious + 1))
  {
    var s1 := Step(s, Allocate(TriggerReadFail));
    var s2 := Step(s1, Allocate(AllocatorTest));
    var s3 := Step(s2, Allocate(AddWork));
    var s4 := Carry(s3, 0);
    t := Run(s4, 0);
  }

  lemma RestsInit(crew: Crew)
    requires crew.producers >= 1 && crew.workers >= 1 && crew.consumers >= 1
    ensures Rests(crew, Init(crew.producers, crew.workers, crew.consumers), 0, Losses(0, 0, 0, 0, 0, 0))
  {
    ReachableInit(crew.producers, crew.workers, crew.consumers);
  }

  /** Any losses, after any number of wasted reads. */
  lemma {:induction false} Lose(crew: Crew, l: Losses) returns (s: State)
    requires crew.producers >= 1 && crew.workers >= 1 && crew.consumers >= 1 && l.spurious == l.wasted
    ensures Rests(crew, s, Lost(l), l)
    decreases Lost(l) + l.wasted
  {
    if l.swallowed > 0 {
      var k := l.(swallowed := l.swallowed - 1);
      var r := Lose(crew, k);
      s := Swallow(crew, r, Lost(k), k);
    } else if l.failedTriggers > 0 {
      var k := l.(failedTriggers := l.failedTriggers - 1);
      var r := Lose(crew, k);
      s := FailTrigger(crew, r, Lost(k), k);
    } else if l.failedDispatches > 0 {
      var k := l.(failedDispatches := l.failedDispatches - 1);
      var r := Lose(crew, k);
      s := FailDispatch(crew, r, Lost(k), k);
    } else if l.failedAllocs > 0 {
      var k := l.(failedAllocs := l.failedAllocs - 1);
      var r := Lose(crew, k);
      s := FailAlloc(crew, r, Lost(k), k);
    } else if l.wasted > 0 {
      var k := l.(spurious := l.spurious - 1, wasted := l.wasted - 1);
      var r := Lose(crew, k);
      s := Waste(crew, r, k);
    } else {
      RestsInit(crew);
      s := Init(crew.producers, crew.workers, crew.consumers);
    }
  }

  /** Then the reads that fail and make up for a loss. */
  lemma {:induction false} Build(crew: Crew, l: Losses) returns (s: State)
    requires crew.producers >= 1 && crew.workers >= 1 && crew.consumers >= 1
    requires l.wasted <= l.spurious <= Lost(l) + l.wasted
    ensures Rests(crew, s, Lost(l) + l.wasted - l.spurious, l)
    decreases l.spurious
  {
    if l.spurious == l.wasted {
      s := Lose(crew, l);
    } else {
      var k := l.(spurious := l.spurious - 1);
      var r := Build(crew, k);
      s := Recover(crew, r, Lost(k) + k.wasted - k.spurious, k);
    }
  }

  /** The counts with which a run can come to rest, for any number of threads: wasted reads of the FIFO are failed
      ones, and each other failed one makes up for one loss. */
  lemma LossesIff(crew: Crew, l: Losses)
    requires crew.producers >= 1 && crew.workers >= 1 && crew.consumers >= 1
    ensures (exists s :: Reachable(s) && Threads(s, crew.producers, crew.workers, crew.consumers) && Quiescent(s)
                         && LossesOf(s) == l)
       <==> l.wasted <= l.spurious <= Lost(l) + l.wasted
  {
    if s :| Reachable(s) && Threads(s, crew.producers, crew.workers, crew.consumers) && Quiescent(s)
            && LossesOf(s) == l {
      PendingBalance(s);
      QuiescentWakeups(s);
    }
    if l.wasted <= l.spurious <= Lost(l) + l.wasted {
      var s := Build(crew, l);
      assert Threads(s, crew.producers, crew.workers, crew.consumers) && Quiescent(s);
    }
  }

  /** The lost-task bound is tight: for every `k` and any number of threads, a run without any failure swallows
      `k` bytes and then rests for good with `k` tasks still pending. */
  lemma BoundIsTight(k: nat, producers: nat, workers: nat, consumers: nat) returns (s: State)
    requires producers >= 1 && workers >= 1 && consumers >= 1
    ensures Reachable(s) && Resting(s) && Quiescent(s) && Threads(s, producers, workers, consumers)
    ensures s.hist.swallowed == k && LostWakeups(s) == k && |s.pending| == k
  {
    s := Lose(Crew(producers, workers, consumers), Losses(k, 0, 0, 0, 0, 0));
  }

  // ----- orders -----

  /** Two chunks arrive and two jobs are added. */
  lemma TwoArrivals(producers: nat, workers: nat, consumers: nat) returns (s: State)
    requires producers >= 1
    ensures Reachable(s) && LostWakeups(s) == 0 && |s.pending| == 2 && s.pending[0].id == 0 && s.pending[1].id == 1
    ensures s == Init(producers, workers, consumers).(jobs := 2, pending := s.pending, hist := s.hist)
    ensures s.hist.arrivals == s.pending && s.hist.scheduled == [] && s.hist.executed == []
  {
    ReachableInit(producers, workers, consumers);
    var s1 := Arrive(Init(producers, workers, consumers));
    var s2 := Dispatch(s1, 1);
    var s3 := Arrive(s2);
    s := Dispatch(s3, 1);
  }

  /** With two or more workers the second arrival can be scheduled and executed before the first, though no
      wake-up is lost. */
  lemma WorkersReorder(producers: nat, workers: nat, consumers: nat) returns (s: State)
    requires producers >= 1 && workers >= 2 && consumers >= 1
    ensures Reachable(s) && Threads(s, producers, workers, consumers) && LostWakeups(s) == 0
    ensures |s.hist.arrivals| == 2 && s.hist.arrivals[0] != s.hist.arrivals[1]
    ensures s.hist.scheduled == s.hist.executed == [s.hist.arrivals[1]]
  {
    var s4 := TwoArrivals(producers, workers, consumers);
    var s5 := Take(s4, 0);
    var s6 := Carry(s5, 1);
    s := Run(s6, 0);
  }

  /** With two or more scheduler threads the second scheduled task can be executed before the first, though
      everything was scheduled in arrival order. */
  lemma ConsumersReorder(producers: nat, workers: nat, consumers: nat) returns (s: State)
    requires producers >= 1 && workers >= 1 && consumers >= 2
    ensures Reachable(s) && Threads(s, producers, workers, consumers) && LostWakeups(s) == 0
    ensures |s.hist.arrivals| == 2 && s.hist.arrivals[0] != s.hist.arrivals[1]
    ensures s.hist.scheduled == s.hist.arrivals && s.hist.executed == [s.hist.arrivals[1]]
  {
    var s4 := TwoArrivals(producers, workers, consumers);
    var s5 := Carry(s4, 0);
    var s6 := Carry(s5, 0);
    var s7 := Fetch(s6, 0);
    s := Run(s7, 1);
  }

  /** Tasks are always scheduled in arrival order exactly when there is one worker. */
  lemma ScheduledInArrivalOrder(producers: nat, workers: nat, consumers: nat)
    requires producers >= 1 && workers >= 1 && consumers >= 1
    ensures (forall s :: Reachable(s) && Threads(s, producers, workers, consumers) ==>
              s.hist.scheduled <= s.hist.arrivals) <==> workers == 1
  {
    if workers >= 2 {
      var s := WorkersReorder(producers, workers, consumers);
      assert s.hist.scheduled[0] != s.hist.arrivals[0];
    }
    forall s | Reachable(s) && Threads(s, producers, workers, consumers) && workers == 1
      ensures s.hist.scheduled <= s.hist.arrivals
    {
      SingleThreadOrder(s);
    }
  }

  /** Tasks are always executed in scheduled order exactly when there is one scheduler thread. */
  lemma ExecutedInScheduledOrder(producers: nat, workers: nat, consumers: nat)
    requires producers >= 1 && workers >= 1 && consumers >= 1
    ensures (forall s :: Reachable(s) && Threads(s, producers, workers, consumers) ==>
              s.hist.executed <= s.hist.scheduled) <==> consumers == 1
  {
    if consumers >= 2 {
      var s := ConsumersReorder(producers, workers, consumers);
      assert s.hist.executed[0] != s.hist.scheduled[0];
    }
    forall s | Reachable(s) && Threads(s, producers, workers, consumers) && consumers == 1
      ensures s.hist.executed <= s.hist.scheduled
    {
      SingleThreadOrder(s);
    }
  }

  /** Tasks are always executed in arrival order exactly when there is one thread of each of the two kinds. */
  lemma ExecutedInArrivalOrder(producers: nat, workers: nat, consumers: nat)
    requires producers >= 1 && workers >= 1 && consumers >= 1
    ensures (forall s :: Reachable(s) && Threads(s, producers, workers, consumers) ==>
              s.hist.executed <= s.hist.arrivals) <==> workers == 1 && consumers == 1
  {
    if workers >= 2 {
      var s := WorkersReorder(producers, workers, consumers);
      assert s.hist.executed[0] != s.hist.arrivals[0];
    } else if consumers >= 2 {
      var s := ConsumersReorder(producers, workers, consumers);
      assert s.hist.executed[0] != s.hist.arrivals[0];
    }
    forall s | Reachable(s) && Threads(s, producers, workers, consumers) && workers == 1 && consumers == 1
      ensures s.hist.executed <= s.hist.arrivals
    {
      SingleThreadOrder(s);
    }
  }

  /** The program's own single scheduler thread does not help when the pool has two threads. */
  lemma TwoWorkersReorder() returns (s: State)
    ensures Reachable(s) && |s.workers| == 2 && |s.consumers| == 1 && LostWakeups(s) == 0
    ensures |s.hist.arrivals| == 2 && s.hist.executed == [s.hist.arrivals[1]]
    ensures !(s.hist.executed <= s.hist.arrivals)
  {
    s := WorkersReorder(1, 2, 1);
    assert s.hist.executed[0] != s.hist.arrivals[0];
  }
}
