/** Once no more bytes arrive, the pipeline runs dry: no step can be taken for ever, and a state in
    which no thread can move is quiescent. */
module PipelineDrain {
  import opened Counting
  import opened Pipeline
  import opened PipelineInvariants
  import opened PipelineTheorems

  /** Steps decided by the serial line or by a failing read of the FIFO; all others are the program's own. */
  predicate External(e: Event) {
    match e
    case Produce(_, ps) => ps.SerialRead? || ps.SerialStop?
    case Allocate(a) => a.TriggerReadFail?
    case Work(_, _) => false
    case Consume(_, _) => false
  }

  /** Steps in which a call of the operating system, the allocator or the pool fails. */
  predicate Failing(e: Event) {
    match e
    case Produce(_, ps) => ps.SerialAllocFail? || ps.TriggerFail?
    case Allocate(a) => a.TriggerReadFail? || a.AddWorkFail?
    case Work(_, ws) => ws.TaskAllocFail?
    case Consume(_, _) => false
  }

  /** A step of the program's own in which nothing fails and a read takes all the trigger bytes it can. */
  predicate Smooth(s: State, e: Event) {
    && Enabled(s, e) && !External(e) && !Failing(e)
    && (e.Allocate? && e.astep.TriggerRead? ==> e.astep.n == FullBatch(s))
  }

  function FullBatch(s: State): nat {
    if s.fifo < BATCH_SIZE then s.fifo else BATCH_SIZE
  }

  // Weights: an upper bound on the program's own steps still ahead of each thread and queue entry.

  function ProducerWeight(pc: Producer): nat {
    match pc
    case PIdle => 0
    case PGot(_) => 27
    case PHolding(_) => 26
    case PLocked(_) => 25
    case PLinked => 24
    case PTrigger => 23
    case PStopped => 0
  }

  function AllocatorWeight(pc: Allocator): nat {
    match pc
    case AWait => 0
    case ATest => 21
    case ADispatch => 20
  }

  function WorkerWeight(pc: Worker): nat {
    match pc
    case WIdle => 0
    case WStart => 18
    case WWantPend => 17
    case WInPend => 16
    case WFound => 15
    case WNone => 2
    case WDrop => 1
    case WPopped(_) => 14
    case WHolding(_) => 13
    case WSlot(_) => 12
    case WInSch(_) => 11
    case WInserted => 6
    case WPosting => 5
  }

  function ConsumerWeight(pc: Consumer): nat {
    match pc
    case CWait => 0
    case CToken => 3
    case CInSch => 2
    case CFound => 1
    case CEmptyExit => 1
    case CRemoved(_) => 4
    case CPosting(_) => 3
    case CHolding(_) => 2
    case CExecuted(_) => 1
  }

  function Measure(s: State): nat {
    Sum(ProducerWeight, s.producers) + 22 * s.fifo + AllocatorWeight(s.allocator) + 19 * s.jobs
    + Sum(WorkerWeight, s.workers) + 4 * s.semFull + 4 * |s.schedule| + Sum(ConsumerWeight, s.consumers)
  }

  lemma ProducerDescends(s: State, i: nat, e: ProducerStep)
    requires i < |s.producers| && ProducerEnabled(s, s.producers[i], e) && !e.SerialRead? && !e.SerialStop?
    ensures Measure(ProducerApply(s, i, e)) < Measure(s)
  {
    SumUpdate(ProducerWeight, s.producers, i, ProducerApply(s, i, e).producers[i]);
  }

  lemma WorkerDescends(s: State, i: nat, e: WorkerStep)
    requires i < |s.workers| && WorkerEnabled(s, s.workers[i], e)
    ensures Measure(WorkerApply(s, i, e)) < Measure(s)
  {
    SumUpdate(WorkerWeight, s.workers, i, WorkerApply(s, i, e).workers[i]);
  }

  lemma ConsumerDescends(s: State, i: nat, e: ConsumerStep)
    requires i < |s.consumers| && ConsumerEnabled(s, s.consumers[i], e)
    ensures Measure(ConsumerApply(s, i, e)) < Measure(s)
  {
    SumUpdate(ConsumerWeight, s.consumers, i, ConsumerApply(s, i, e).consumers[i]);
  }

  lemma Descends(s: State, e: Event)
    requires Enabled(s, e) && !External(e)
    ensures Measure(Apply(s, e)) < Measure(s)
  {
    match e
    case Produce(p, ps) => ProducerDescends(s, p, ps);
    case Allocate(_) =>
    case Work(w, ws) => WorkerDescends(s, w, ws);
    case Consume(c, cs) => ConsumerDescends(s, c, cs);
  }

  /** Without external steps, a run is never longer than the measure of the state it starts in. */
  lemma {:induction false} DrainBound(s: State, es: seq<Event>)
    requires Possible(s, es) && forall i :: 0 <= i < |es| ==> !External(es[i])
    ensures |es| + Measure(After(s, es)) <= Measure(s)
  {
    if es != [] {
      DrainBound(s, es[..|es| - 1]);
      Descends(After(s, es[..|es| - 1]), es[|es| - 1]);
    }
  }

  // ----- who can move -----

  lemma ProducerMove(s: State, i: nat) returns (e: Event)
    requires Payload(s) && s.pendLock.Free? && i < |s.producers| && !s.producers[i].PIdle? && !s.producers[i].PStopped?
    requires s.fifo == 0
    ensures Smooth(s, e)
  {
    match s.producers[i]
    case PGot(_) => e := Produce(i, SerialAlloc(seq(DATA_SIZE - CHUNK_SIZE, _ => 0 as bv8)));
    case PHolding(_) => e := Produce(i, PendingLock);
    case PLocked(_) => e := Produce(i, PendingLink);
    case PLinked => e := Produce(i, PendingUnlock);
    case PTrigger => e := Produce(i, TriggerWrite);
  }

  lemma AllocatorMove(s: State) returns (e: Event)
    requires !s.allocator.AWait? || s.fifo > 0
    ensures Smooth(s, e)
  {
    match s.allocator
    case AWait => e := Allocate(TriggerRead(FullBatch(s)));
    case ATest => e := Allocate(AllocatorTest);
    case ADispatch => e := Allocate(AddWork);
  }

  lemma WorkerMove(s: State, i: nat) returns (e: Event)
    requires Found(s) && s.schLock.Free? && i < |s.workers| && !s.workers[i].WIdle?
    requires s.pendLock.Free? || WorkerInPend(s.workers[i])
    requires s.workers[i].WHolding? ==> s.semEmpty > 0
    ensures Smooth(s, e)
  {
    match s.workers[i]
    case WStart => e := Work(i, TaskAlloc);
    case WWantPend => e := Work(i, AcquireLock);
    case WInPend => e := Work(i, AcquireTest);
    case WFound => e := Work(i, AcquirePop);
    case WNone => e := Work(i, AcquireUnlock);
    case WDrop => e := Work(i, TaskDrop);
    case WPopped(_) => e := Work(i, AcquireUnlock);
    case WHolding(_) => e := Work(i, SlotWait);
    case WSlot(_) => e := Work(i, ScheduleLock);
    case WInSch(_) => e := Work(i, ScheduleInsert);
    case WInserted => e := Work(i, ScheduleUnlock);
    case WPosting => e := Work(i, FullPost);
  }

  lemma ConsumerMove(s: State, i: nat) returns (e: Event)
    requires Found(s) && s.schLock.Free? && i < |s.consumers|
    requires s.consumers[i].CWait? ==> s.semFull > 0
    ensures Smooth(s, e)
  {
    match s.consumers[i]
    case CWait => e := Consume(i, FullWait);
    case CToken => e := Consume(i, RemoveLock);
    case CInSch => e := Consume(i, RemoveTest);
    case CFound => e := Consume(i, RemovePop);
    case CEmptyExit => e := Consume(i, RemoveUnlock);
    case CRemoved(_) => e := Consume(i, RemoveUnlock);
    case CPosting(_) => e := Consume(i, EmptyPost);
    case CHolding(_) => e := Consume(i, Execute);
    case CExecuted(_) => e := Consume(i, Recycle);
  }

  /** A lock holder can always take its next step. */
  lemma HolderMove(s: State) returns (e: Event)
    requires PendLock(s) && SchLock(s) && Found(s) && (!s.pendLock.Free? || !s.schLock.Free?)
    ensures Smooth(s, e)
  {
    match s.pendLock
    case HeldByProducer(p) =>
      e := Produce(p, if s.producers[p].PLocked? then PendingLink else PendingUnlock);
    case HeldByWorker(w) =>
      var pc := s.workers[w];
      e := Work(w, if pc.WInPend? then AcquireTest else if pc.WFound? then AcquirePop else AcquireUnlock);
    case Free =>
      match s.schLock {
        case HeldByWorker(w) =>
          e := Work(w, if s.workers[w].WInSch? then ScheduleInsert else ScheduleUnlock);
        case HeldByConsumer(c) =>
          var pc := s.consumers[c];
          e := Consume(c, if pc.CInSch? then RemoveTest else if pc.CFound? then RemovePop else RemoveUnlock);
      }
  }

  /** With the locks free and the scheduler threads waiting on an empty list, a busy worker can move. */
  lemma IdleConsumersMove(s: State, i: nat) returns (e: Event)
    requires Inv(s) && s.pendLock.Free? && s.schLock.Free? && s.semFull == 0
    requires forall c :: 0 <= c < |s.consumers| ==> s.consumers[c].CWait?
    requires i < |s.workers| && !s.workers[i].WIdle?
    ensures Smooth(s, e)
  {
    if !s.workers[i].WHolding? || s.semEmpty > 0 {
      e := WorkerMove(s, i);
    } else {
      SumZero(TakenToken, s.consumers);
      SumZero(UnpostedRemoval, s.consumers);
      var w;
      if Sum(ReservedSlot, s.workers) > 0 {
        w := SumWitness(ReservedSlot, s.workers);
      } else {
        w := SumWitness(UnpostedInsert, s.workers);
      }
      e := WorkerMove(s, w);
    }
  }

  /** Unless everything is quiescent, some thread of the program can take its next step, and without a failure. */
  lemma Progress(s: State) returns (e: Event)
    requires Inv(s) && |s.workers| >= 1 && |s.consumers| >= 1 && !Quiescent(s)
    ensures Smooth(s, e)
  {
    if !s.pendLock.Free? || !s.schLock.Free? {
      e := HolderMove(s);
    } else if !s.allocator.AWait? || s.fifo > 0 {
      e := AllocatorMove(s);
    } else if p :| 0 <= p < |s.producers| && !s.producers[p].PIdle? && !s.producers[p].PStopped? {
      e := ProducerMove(s, p);
    } else if c :| 0 <= c < |s.consumers| && !s.consumers[c].CWait? {
      e := ConsumerMove(s, c);
    } else if s.semFull > 0 {
      e := ConsumerMove(s, 0);
    } else if w :| 0 <= w < |s.workers| && !s.workers[w].WIdle? {
      e := IdleConsumersMove(s, w);
    } else if s.jobs > 0 {
      e := Work(0, TakeJob);
    } else {
      SumZero(TakenToken, s.consumers);
      SumZero(UnpostedInsert, s.workers);
      assert false;
    }
  }

  /** No deadlock: with a task in a worker's hand or in the schedule list, some thread can move. */
  lemma NoDeadlock(s: State)
    requires Reachable(s) && |s.workers| >= 1 && |s.consumers| >= 1
    requires s.schedule != [] || exists w :: 0 <= w < |s.workers| && InWorker(s.workers[w]).One?
    ensures exists e :: Smooth(s, e)
  {
    ReachableInv(s);
    var e := Progress(s);
  }

  /** A run that cannot go on without new input has emptied every hand and the schedule list, and what it
      leaves pending is covered by swallowed or failed wake-ups. */
  lemma StuckIsQuiescent(s: State)
    requires Reachable(s) && |s.workers| >= 1 && |s.consumers| >= 1
    requires forall e :: Enabled(s, e) ==> External(e)
    ensures Quiescent(s) && |s.pending| <= LostWakeups(s)
  {
    ReachableInv(s);
    if !Quiescent(s) {
      var e := Progress(s);
      assert false;
    }
    PendingBalance(s);
    QuiescentWakeups(s);
  }

  /** Every step of the run is smooth. */
  ghost predicate SmoothRun(s: State, es: seq<Event>)
    requires Possible(s, es)
    decreases |es|
  {
    es == [] || (SmoothRun(s, es[..|es| - 1]) && Smooth(After(s, es[..|es| - 1]), es[|es| - 1]))
  }

  lemma {:induction false} SmoothIsOwn(s: State, es: seq<Event>)
    requires Possible(s, es) && SmoothRun(s, es)
    ensures forall i :: 0 <= i < |es| ==> !External(es[i])
    decreases |es|
  {
    if es != [] {
      var front := es[..|es| - 1];
      SmoothIsOwn(s, front);
      assert forall i :: 0 <= i < |front| ==> es[i] == front[i];
    }
  }

  /** `es` is a smooth run to a reachable state. */
  ghost predicate OwnRun(s: State, es: seq<Event>) {
    Possible(s, es) && Reachable(After(s, es)) && SmoothRun(s, es)
  }

  lemma OneMore(s: State, es: seq<Event>) returns (fs: seq<Event>)
    requires OwnRun(s, es) && !Quiescent(After(s, es))
    requires |After(s, es).workers| >= 1 && |After(s, es).consumers| >= 1
    ensures OwnRun(s, fs) && Measure(After(s, fs)) < Measure(After(s, es))
    ensures |After(s, fs).workers| >= 1 && |After(s, fs).consumers| >= 1
  {
    var t := After(s, es);
    ReachableInv(t);
    var e := Progress(t);
    Descends(t, e);
    ReachableStep(t, e);
    fs := es + [e];
    assert fs[..|fs| - 1] == es && fs[|fs| - 1] == e;
  }

  /** From every reachable state smooth steps can bring everything to rest. */
  lemma {:induction false} CanDrain(s: State, es: seq<Event>) returns (fs: seq<Event>)
    requires OwnRun(s, es) && |After(s, es).workers| >= 1 && |After(s, es).consumers| >= 1
    ensures OwnRun(s, fs) && Quiescent(After(s, fs))
    decreases Measure(After(s, es))
  {
    if Quiescent(After(s, es)) {
      fs := es;
    } else {
      var gs := OneMore(s, es);
      fs := CanDrain(s, gs);
    }
  }

  lemma AlwaysDrains(s: State)
    requires Reachable(s) && |s.workers| >= 1 && |s.consumers| >= 1
    ensures exists es :: OwnRun(s, es) && Quiescent(After(s, es)) && |es| <= Measure(s)
  {
    assert OwnRun(s, []);
    var es := CanDrain(s, []);
    SmoothIsOwn(s, es);
    DrainBound(s, es);
  }

  lemma EmptyHands(s: State, n: Node)
    requires Quiescent(s)
    ensures Held(InProducer, s.producers, n) == 0 && Held(InWorker, s.workers, n) == 0
    ensures Held(NotExecuted, s.consumers, n) == 0 && Held(NotFreed, s.consumers, n) == 0
  {
    HeldNone(InProducer, s.producers, n);
    HeldNone(InWorker, s.workers, n);
    HeldNone(NotExecuted, s.consumers, n);
    HeldNone(NotFreed, s.consumers, n);
  }

  /** At rest every created node has either been executed and freed, once, or is still pending. */
  lemma AtRest(s: State, n: Node)
    requires Reachable(s) && Quiescent(s)
    ensures Count(s.hist.freed, n) == Count(s.hist.executed, n)
    ensures Count(s.hist.executed, n) + Count(s.pending, n) == if n in s.hist.created then 1 else 0
  {
    EmptyHands(s, n);
    OneOwner(s, n);
    ReachableInv(s);
    assert AtConsumers(s, n) by { assert Hands(s, n); }
    assert Count(s.schedule, n) == 0;
  }

  /** A run that cannot go on has executed everything if and only if its spurious wake-ups that found a task
      make up for all the lost ones. */
  lemma AllExecutedIff(s: State)
    requires Reachable(s) && |s.workers| >= 1 && |s.consumers| >= 1
    requires forall e :: Enabled(s, e) ==> External(e)
    ensures (forall n :: n in s.hist.created ==> Count(s.hist.executed, n) == 1)
       <==> LostWakeups(s) + s.hist.wasted == s.hist.spurious
  {
    StuckIsQuiescent(s);
    PendingBalance(s);
    QuiescentWakeups(s);
    forall n | n in s.hist.created ensures Count(s.hist.executed, n) + Count(s.pending, n) == 1 {
      AtRest(s, n);
    }
    if s.pending != [] {
      AtRest(s, s.pending[0]);
      CountIn(s.pending, 0);
    }
  }

  /** While no read of the FIFO fails, that is if and only if no trigger byte was swallowed and no trigger,
      dispatch or allocation failed. */
  lemma AllExecutedUnlessLost(s: State)
    requires Reachable(s) && |s.workers| >= 1 && |s.consumers| >= 1 && s.hist.spurious == 0
    requires forall e :: Enabled(s, e) ==> External(e)
    ensures (forall n :: n in s.hist.created ==> Count(s.hist.executed, n) == 1) <==> LostWakeups(s) == 0
  {
    AllExecutedIff(s);
    StrandedExactly(s);
  }
}
