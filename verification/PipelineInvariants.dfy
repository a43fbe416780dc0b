/** What every step of the pipeline keeps, for any number of threads and any interleaving. */
module PipelineInvariants {
  import opened Counting
  import opened Pipeline

  // ----- mutual exclusion -----

  predicate ProducerInPend(pc: Producer) { pc.PLocked? || pc.PLinked? }
  predicate WorkerInPend(pc: Worker) { pc.WInPend? || pc.WFound? || pc.WNone? || pc.WPopped? }
  predicate WorkerInSch(pc: Worker) { pc.WInSch? || pc.WInserted? }
  predicate ConsumerInSch(pc: Consumer) { pc.CInSch? || pc.CFound? || pc.CEmptyExit? || pc.CRemoved? }

  /** A thread is in a pendlock critical section exactly when the lock names it. */
  ghost predicate PendLock(s: State) {
    && (forall i :: 0 <= i < |s.producers| ==> (ProducerInPend(s.producers[i]) <==> s.pendLock == HeldByProducer(i)))
    && (forall i :: 0 <= i < |s.workers| ==> (WorkerInPend(s.workers[i]) <==> s.pendLock == HeldByWorker(i)))
    && match s.pendLock
       case Free => true
       case HeldByProducer(p) => p < |s.producers|
       case HeldByWorker(w) => w < |s.workers|
       case HeldByConsumer(_) => false
  }

  /** A thread is in a taskschlock critical section exactly when the lock names it. */
  ghost predicate SchLock(s: State) {
    && (forall i :: 0 <= i < |s.workers| ==> (WorkerInSch(s.workers[i]) <==> s.schLock == HeldByWorker(i)))
    && (forall i :: 0 <= i < |s.consumers| ==> (ConsumerInSch(s.consumers[i]) <==> s.schLock == HeldByConsumer(i)))
    && match s.schLock
       case Free => true
       case HeldByProducer(_) => false
       case HeldByWorker(w) => w < |s.workers|
       case HeldByConsumer(c) => c < |s.consumers|
  }

  /** What a thread saw under the lock still holds when it acts on it. */
  ghost predicate Found(s: State) {
    && (forall i :: 0 <= i < |s.workers| && s.workers[i].WFound? ==> s.pending != [])
    && (forall i :: 0 <= i < |s.workers| && s.workers[i].WNone? ==> s.pending == [] && s.hist.wasted > 0)
    && (forall i :: 0 <= i < |s.consumers| && s.consumers[i].CFound? ==> s.schedule != [])
  }

  // ----- semaphores -----

  function ReservedSlot(pc: Worker): nat { if pc.WSlot? || pc.WInSch? then 1 else 0 }
  function UnpostedInsert(pc: Worker): nat { if pc.WInserted? || pc.WPosting? then 1 else 0 }
  function TakenToken(pc: Consumer): nat { if pc.CToken? || pc.CInSch? || pc.CFound? then 1 else 0 }
  function UnpostedRemoval(pc: Consumer): nat { if pc.CRemoved? || pc.CPosting? then 1 else 0 }

  ghost predicate Semaphores(s: State) {
    && s.semEmpty + Sum(ReservedSlot, s.workers) + |s.schedule| + Sum(UnpostedRemoval, s.consumers) == TASK_MAXNUM
    && |s.schedule| == s.semFull + Sum(TakenToken, s.consumers) + Sum(UnpostedInsert, s.workers)
    && forall i :: 0 <= i < |s.consumers| ==> !s.consumers[i].CEmptyExit?
  }

  // ----- triggers -----

  /** Wake-ups still on their way to the pending list. */
  function Wakeups(s: State): nat {
    Sum(OwedTrigger, s.producers) + s.fifo + OpenBatch(s.allocator) + s.jobs + Sum(OpenJob, s.workers)
  }

  /** Wake-ups that no longer lead to an acquisition. */
  function LostWakeups(s: State): nat {
    s.hist.swallowed + s.hist.failedTriggers + s.hist.failedDispatches + s.hist.failedAllocs
  }

  /** Every pending node answers to one wake-up under way or lost, up to the spurious and the wasted ones. */
  ghost predicate Triggers(s: State) {
    && |s.pending| + s.hist.spurious == Wakeups(s) + LostWakeups(s) + s.hist.wasted
    && s.hist.wasted <= s.hist.spurious
  }

  // ----- ownership -----

  function InProducer(pc: Producer): Hand<Node> {
    if pc.PHolding? || pc.PLocked? then One(pc.node) else Nothing
  }
  function InWorker(pc: Worker): Hand<Node> {
    if pc.WPopped? || pc.WHolding? || pc.WSlot? || pc.WInSch? then One(pc.node) else Nothing
  }
  function NotExecuted(pc: Consumer): Hand<Node> {
    if pc.CRemoved? || pc.CPosting? || pc.CHolding? then One(pc.node) else Nothing
  }
  function NotFreed(pc: Consumer): Hand<Node> {
    if pc.CExecuted? then One(pc.node) else Nothing
  }

  function HoldsTaskl(pc: Worker): nat {
    if pc.WIdle? || pc.WStart? || pc.WInserted? || pc.WPosting? then 0 else 1
  }
  function CarriesTaskl(pc: Consumer): nat {
    if pc.CRemoved? || pc.CPosting? || pc.CHolding? || pc.CExecuted? then 1 else 0
  }

  /** Each allocated `taskl` is freed, scheduled, or with one thread. */
  ghost predicate Wrappers(s: State) {
    s.hist.tasklsAllocated
    == s.hist.tasklsFreed + Sum(HoldsTaskl, s.workers) + |s.schedule| + Sum(CarriesTaskl, s.consumers)
  }

  ghost predicate Numbered(created: seq<Node>) {
    forall i :: 0 <= i < |created| ==> created[i].id == i
  }

  /** A copy of `n` is with a producer until it is linked. */
  ghost predicate AtProducers(s: State, n: Node) {
    Count(s.hist.created, n) == Held(InProducer, s.producers, n) + Count(s.hist.arrivals, n)
  }

  /** What the workers took is scheduled or in their hands. */
  ghost predicate AtWorkers(s: State, n: Node) {
    Count(s.hist.popped, n) == Count(s.hist.scheduled, n) + Held(InWorker, s.workers, n)
  }

  /** What the scheduler threads took is executed or in hand, and what they executed is freed or in hand. */
  ghost predicate AtConsumers(s: State, n: Node) {
    && Count(s.hist.removed, n) == Count(s.hist.executed, n) + Held(NotExecuted, s.consumers, n)
    && Count(s.hist.executed, n) == Count(s.hist.freed, n) + Held(NotFreed, s.consumers, n)
  }

  ghost predicate Hands(s: State, n: Node) {
    AtProducers(s, n) && AtWorkers(s, n) && AtConsumers(s, n)
  }

  // ----- order -----

  /** Each list gives out what was linked into it, in that order. */
  ghost predicate Fifos(s: State) {
    && s.hist.arrivals == s.hist.popped + s.pending
    && s.hist.scheduled == s.hist.removed + s.schedule
  }

  function InOrder(h: Hand<Node>): seq<Node> {
    match h
    case Nothing => []
    case One(n) => [n]
  }

  /** A single worker schedules nodes in the order it took them. */
  ghost predicate WorkerOrder(s: State) {
    |s.workers| == 1 ==> s.hist.popped == s.hist.scheduled + InOrder(InWorker(s.workers[0]))
  }

  /** A single scheduler thread executes nodes in the order it took them. */
  ghost predicate ConsumerOrder(s: State) {
    |s.consumers| == 1 ==> s.hist.removed == s.hist.executed + InOrder(NotExecuted(s.consumers[0]))
  }

  function WorkerLoad(pc: Worker): nat { if InWorker(pc).One? then 1 else 0 }
  function ConsumerLoad(pc: Consumer): nat { if NotExecuted(pc).One? then 1 else 0 }

  /** How far scheduling is behind taking, and execution behind removal. */
  ghost predicate Lags(s: State) {
    && |s.hist.popped| == |s.hist.scheduled| + Sum(WorkerLoad, s.workers)
    && |s.hist.removed| == |s.hist.executed| + Sum(ConsumerLoad, s.consumers)
  }

  // ----- payload -----

  /** A command buffer that starts with one chunk, followed by zeros. */
  ghost predicate StartsWith(command: seq<bv8>, chunk: seq<bv8>) {
    && 1 <= |chunk| <= CHUNK_SIZE
    && |command| == DATA_SIZE
    && command[..|chunk|] == chunk
    && forall i :: |chunk| <= i < CHUNK_SIZE ==> command[i] == 0
  }

  ghost predicate Payload(s: State) {
    && (forall i :: 0 <= i < |s.producers| && s.producers[i].PGot? ==> 1 <= |s.producers[i].chunk| <= CHUNK_SIZE)
    && Numbered(s.hist.created)
    && |s.hist.chunks| == |s.hist.created|
    && forall i :: 0 <= i < |s.hist.created| ==> StartsWith(s.hist.created[i].command, s.hist.chunks[i])
  }

  ghost predicate Inv(s: State) {
    && PendLock(s) && SchLock(s) && Found(s) && Semaphores(s) && Triggers(s)
    && (forall n :: Hands(s, n)) && Wrappers(s)
    && Fifos(s) && WorkerOrder(s) && ConsumerOrder(s) && Lags(s) && Payload(s)
  }

  // ----- steps of a producer -----

  lemma ProducerPendLock(s: State, i: nat, e: ProducerStep)
    requires PendLock(s) && i < |s.producers| && ProducerEnabled(s, s.producers[i], e)
    ensures PendLock(ProducerApply(s, i, e))
  {
  }

  lemma ProducerFound(s: State, i: nat, e: ProducerStep)
    requires PendLock(s) && Found(s) && i < |s.producers| && ProducerEnabled(s, s.producers[i], e)
    ensures Found(ProducerApply(s, i, e))
  {
  }

  lemma ProducerTriggers(s: State, i: nat, e: ProducerStep)
    requires Triggers(s) && i < |s.producers| && ProducerEnabled(s, s.producers[i], e)
    ensures Triggers(ProducerApply(s, i, e))
  {
    SumUpdate(OwedTrigger, s.producers, i, ProducerApply(s, i, e).producers[i]);
  }

  lemma ProducerFifos(s: State, i: nat, e: ProducerStep)
    requires Fifos(s) && i < |s.producers| && ProducerEnabled(s, s.producers[i], e)
    ensures Fifos(ProducerApply(s, i, e))
  {
  }

  lemma ProducerAllocKeeps(s: State, i: nat, e: ProducerStep, n: Node)
    requires AtProducers(s, n) && i < |s.producers| && e.SerialAlloc? && ProducerEnabled(s, s.producers[i], e)
    ensures AtProducers(ProducerApply(s, i, e), n)
  {
    var t := ProducerApply(s, i, e);
    var x := t.producers[i].node;
    assert t.hist.created == s.hist.created + [x] && t.producers == s.producers[i := PHolding(x)];
    CountAppend(s.hist.created, x, n);
    HeldUpdate(InProducer, s.producers, i, PHolding(x), n);
  }

  lemma ProducerLinkKeeps(s: State, i: nat, n: Node)
    requires AtProducers(s, n) && i < |s.producers| && ProducerEnabled(s, s.producers[i], PendingLink)
    ensures AtProducers(ProducerApply(s, i, PendingLink), n)
  {
    var t := ProducerApply(s, i, PendingLink);
    assert t.hist.arrivals == s.hist.arrivals + [s.producers[i].node] && t.producers == s.producers[i := PLinked];
    CountAppend(s.hist.arrivals, s.producers[i].node, n);
    HeldUpdate(InProducer, s.producers, i, PLinked, n);
  }

  lemma ProducerKeeps(s: State, i: nat, e: ProducerStep, n: Node)
    requires AtProducers(s, n) && i < |s.producers| && ProducerEnabled(s, s.producers[i], e)
    ensures AtProducers(ProducerApply(s, i, e), n)
  {
    if e.SerialAlloc? {
      ProducerAllocKeeps(s, i, e, n);
    } else if e.PendingLink? {
      ProducerLinkKeeps(s, i, n);
    } else {
      var pc := ProducerApply(s, i, e).producers[i];
      assert InProducer(pc) == InProducer(s.producers[i]);
      HeldUpdate(InProducer, s.producers, i, pc, n);
    }
  }

  // ----- steps of the allocator -----

  lemma AllocatorTriggers(s: State, e: AllocatorStep)
    requires Triggers(s) && AllocatorEnabled(s, s.allocator, e)
    ensures Triggers(AllocatorApply(s, e))
  {
  }

  // ----- steps of a worker -----

  lemma WorkerPendLock(s: State, i: nat, e: WorkerStep)
    requires PendLock(s) && i < |s.workers| && WorkerEnabled(s, s.workers[i], e)
    ensures PendLock(WorkerApply(s, i, e))
  {
  }

  lemma WorkerSchLock(s: State, i: nat, e: WorkerStep)
    requires SchLock(s) && i < |s.workers| && WorkerEnabled(s, s.workers[i], e)
    ensures SchLock(WorkerApply(s, i, e))
  {
  }

  lemma WorkerFound(s: State, i: nat, e: WorkerStep)
    requires PendLock(s) && SchLock(s) && Found(s) && i < |s.workers| && WorkerEnabled(s, s.workers[i], e)
    ensures Found(WorkerApply(s, i, e))
  {
  }

  lemma WorkerSemaphores(s: State, i: nat, e: WorkerStep)
    requires Semaphores(s) && i < |s.workers| && WorkerEnabled(s, s.workers[i], e)
    ensures Semaphores(WorkerApply(s, i, e))
  {
    var pc := WorkerApply(s, i, e).workers[i];
    SumUpdate(ReservedSlot, s.workers, i, pc);
    SumUpdate(UnpostedInsert, s.workers, i, pc);
  }

  lemma WorkerTriggers(s: State, i: nat, e: WorkerStep)
    requires Triggers(s) && i < |s.workers| && WorkerEnabled(s, s.workers[i], e)
    ensures Triggers(WorkerApply(s, i, e))
  {
    SumUpdate(OpenJob, s.workers, i, WorkerApply(s, i, e).workers[i]);
  }

  lemma WorkerFifos(s: State, i: nat, e: WorkerStep)
    requires Fifos(s) && i < |s.workers| && WorkerEnabled(s, s.workers[i], e)
    ensures Fifos(WorkerApply(s, i, e))
  {
  }

  lemma WorkerPopKeeps(s: State, i: nat, n: Node)
    requires AtWorkers(s, n) && i < |s.workers| && WorkerEnabled(s, s.workers[i], AcquirePop)
    ensures AtWorkers(WorkerApply(s, i, AcquirePop), n)
  {
    var t := WorkerApply(s, i, AcquirePop);
    assert t.hist.popped == s.hist.popped + [s.pending[0]] && t.workers == s.workers[i := WPopped(s.pending[0])];
    CountAppend(s.hist.popped, s.pending[0], n);
    HeldUpdate(InWorker, s.workers, i, WPopped(s.pending[0]), n);
  }

  lemma WorkerInsertKeeps(s: State, i: nat, n: Node)
    requires AtWorkers(s, n) && i < |s.workers| && WorkerEnabled(s, s.workers[i], ScheduleInsert)
    ensures AtWorkers(WorkerApply(s, i, ScheduleInsert), n)
  {
    var t := WorkerApply(s, i, ScheduleInsert);
    assert t.hist.scheduled == s.hist.scheduled + [s.workers[i].node] && t.workers == s.workers[i := WInserted];
    CountAppend(s.hist.scheduled, s.workers[i].node, n);
    HeldUpdate(InWorker, s.workers, i, WInserted, n);
  }

  lemma WorkerKeeps(s: State, i: nat, e: WorkerStep, n: Node)
    requires AtWorkers(s, n) && i < |s.workers| && WorkerEnabled(s, s.workers[i], e)
    ensures AtWorkers(WorkerApply(s, i, e), n)
  {
    if e.AcquirePop? {
      WorkerPopKeeps(s, i, n);
    } else if e.ScheduleInsert? {
      WorkerInsertKeeps(s, i, n);
    } else {
      var pc := WorkerApply(s, i, e).workers[i];
      assert InWorker(pc) == InWorker(s.workers[i]);
      HeldUpdate(InWorker, s.workers, i, pc, n);
    }
  }

  lemma WorkerWrappers(s: State, i: nat, e: WorkerStep)
    requires Wrappers(s) && i < |s.workers| && WorkerEnabled(s, s.workers[i], e)
    ensures Wrappers(WorkerApply(s, i, e))
  {
    SumUpdate(HoldsTaskl, s.workers, i, WorkerApply(s, i, e).workers[i]);
  }

  lemma WorkerLags(s: State, i: nat, e: WorkerStep)
    requires Lags(s) && i < |s.workers| && WorkerEnabled(s, s.workers[i], e)
    ensures Lags(WorkerApply(s, i, e))
  {
    SumUpdate(WorkerLoad, s.workers, i, WorkerApply(s, i, e).workers[i]);
  }

  // ----- steps of a scheduler thread -----

  lemma ConsumerSchLock(s: State, i: nat, e: ConsumerStep)
    requires SchLock(s) && i < |s.consumers| && ConsumerEnabled(s, s.consumers[i], e)
    ensures SchLock(ConsumerApply(s, i, e))
  {
  }

  lemma ConsumerFound(s: State, i: nat, e: ConsumerStep)
    requires SchLock(s) && Found(s) && i < |s.consumers| && ConsumerEnabled(s, s.consumers[i], e)
    ensures Found(ConsumerApply(s, i, e))
  {
  }

  lemma ConsumerSemaphores(s: State, i: nat, e: ConsumerStep)
    requires Semaphores(s) && i < |s.consumers| && ConsumerEnabled(s, s.consumers[i], e)
    ensures Semaphores(ConsumerApply(s, i, e))
  {
    var pc := ConsumerApply(s, i, e).consumers[i];
    SumUpdate(TakenToken, s.consumers, i, pc);
    SumUpdate(UnpostedRemoval, s.consumers, i, pc);
    SumAtLeast(TakenToken, s.consumers, i);
  }

  lemma ConsumerFifos(s: State, i: nat, e: ConsumerStep)
    requires Fifos(s) && i < |s.consumers| && ConsumerEnabled(s, s.consumers[i], e)
    ensures Fifos(ConsumerApply(s, i, e))
  {
  }

  lemma ConsumerPopKeeps(s: State, i: nat, n: Node)
    requires AtConsumers(s, n) && i < |s.consumers| && ConsumerEnabled(s, s.consumers[i], RemovePop)
    ensures AtConsumers(ConsumerApply(s, i, RemovePop), n)
  {
    CountAppend(s.hist.removed, s.schedule[0], n);
    HeldUpdate(NotExecuted, s.consumers, i, CRemoved(s.schedule[0]), n);
    HeldUpdate(NotFreed, s.consumers, i, CRemoved(s.schedule[0]), n);
  }

  lemma ConsumerExecuteKeeps(s: State, i: nat, n: Node)
    requires AtConsumers(s, n) && i < |s.consumers| && ConsumerEnabled(s, s.consumers[i], Execute)
    ensures AtConsumers(ConsumerApply(s, i, Execute), n)
  {
    CountAppend(s.hist.executed, s.consumers[i].node, n);
    HeldUpdate(NotExecuted, s.consumers, i, CExecuted(s.consumers[i].node), n);
    HeldUpdate(NotFreed, s.consumers, i, CExecuted(s.consumers[i].node), n);
  }

  lemma ConsumerRecycleKeeps(s: State, i: nat, n: Node)
    requires AtConsumers(s, n) && i < |s.consumers| && ConsumerEnabled(s, s.consumers[i], Recycle)
    ensures AtConsumers(ConsumerApply(s, i, Recycle), n)
  {
    CountAppend(s.hist.freed, s.consumers[i].node, n);
    HeldUpdate(NotExecuted, s.consumers, i, CWait, n);
    HeldUpdate(NotFreed, s.consumers, i, CWait, n);
  }

  lemma ConsumerKeeps(s: State, i: nat, e: ConsumerStep, n: Node)
    requires AtConsumers(s, n) && i < |s.consumers| && ConsumerEnabled(s, s.consumers[i], e)
    ensures AtConsumers(ConsumerApply(s, i, e), n)
  {
    if e.RemovePop? {
      ConsumerPopKeeps(s, i, n);
    } else if e.Execute? {
      ConsumerExecuteKeeps(s, i, n);
    } else if e.Recycle? {
      ConsumerRecycleKeeps(s, i, n);
    } else {
      var pc := ConsumerApply(s, i, e).consumers[i];
      assert NotExecuted(pc) == NotExecuted(s.consumers[i]) && NotFreed(pc) == NotFreed(s.consumers[i]);
      HeldUpdate(NotExecuted, s.consumers, i, pc, n);
      HeldUpdate(NotFreed, s.consumers, i, pc, n);
    }
  }

  lemma ConsumerWrappers(s: State, i: nat, e: ConsumerStep)
    requires Wrappers(s) && i < |s.consumers| && ConsumerEnabled(s, s.consumers[i], e)
    ensures Wrappers(ConsumerApply(s, i, e))
  {
    SumUpdate(CarriesTaskl, s.consumers, i, ConsumerApply(s, i, e).consumers[i]);
  }

  lemma ConsumerLags(s: State, i: nat, e: ConsumerStep)
    requires Lags(s) && i < |s.consumers| && ConsumerEnabled(s, s.consumers[i], e)
    ensures Lags(ConsumerApply(s, i, e))
  {
    SumUpdate(ConsumerLoad, s.consumers, i, ConsumerApply(s, i, e).consumers[i]);
  }

  // ----- every step -----

  lemma PendLockStep(s: State, e: Event)
    requires PendLock(s) && Enabled(s, e)
    ensures PendLock(Apply(s, e))
  {
    match e
    case Produce(p, ps) => ProducerPendLock(s, p, ps);
    case Allocate(_) =>
    case Work(w, ws) => WorkerPendLock(s, w, ws);
    case Consume(_, _) =>
  }

  lemma SchLockStep(s: State, e: Event)
    requires SchLock(s) && Enabled(s, e)
    ensures SchLock(Apply(s, e))
  {
    match e
    case Produce(_, _) =>
    case Allocate(_) =>
    case Work(w, ws) => WorkerSchLock(s, w, ws);
    case Consume(c, cs) => ConsumerSchLock(s, c, cs);
  }

  lemma FoundStep(s: State, e: Event)
    requires PendLock(s) && SchLock(s) && Found(s) && Enabled(s, e)
    ensures Found(Apply(s, e))
  {
    match e
    case Produce(p, ps) => ProducerFound(s, p, ps);
    case Allocate(_) =>
    case Work(w, ws) => WorkerFound(s, w, ws);
    case Consume(c, cs) => ConsumerFound(s, c, cs);
  }

  lemma SemaphoresStep(s: State, e: Event)
    requires Semaphores(s) && Enabled(s, e)
    ensures Semaphores(Apply(s, e))
  {
    match e
    case Produce(_, _) =>
    case Allocate(_) =>
    case Work(w, ws) => WorkerSemaphores(s, w, ws);
    case Consume(c, cs) => ConsumerSemaphores(s, c, cs);
  }

  lemma TriggersStep(s: State, e: Event)
    requires Triggers(s) && Enabled(s, e)
    ensures Triggers(Apply(s, e))
  {
    match e
    case Produce(p, ps) => ProducerTriggers(s, p, ps);
    case Allocate(a) => AllocatorTriggers(s, a);
    case Work(w, ws) => WorkerTriggers(s, w, ws);
    case Consume(_, _) =>
  }

  lemma HandsStep(s: State, e: Event, n: Node)
    requires Hands(s, n) && Enabled(s, e)
    ensures Hands(Apply(s, e), n)
  {
    match e
    case Produce(p, ps) => ProducerKeeps(s, p, ps, n);
    case Allocate(_) =>
    case Work(w, ws) => WorkerKeeps(s, w, ws, n);
    case Consume(c, cs) => ConsumerKeeps(s, c, cs, n);
  }

  lemma WrappersStep(s: State, e: Event)
    requires Wrappers(s) && Enabled(s, e)
    ensures Wrappers(Apply(s, e))
  {
    match e
    case Produce(_, _) =>
    case Allocate(_) =>
    case Work(w, ws) => WorkerWrappers(s, w, ws);
    case Consume(c, cs) => ConsumerWrappers(s, c, cs);
  }

  lemma FifosStep(s: State, e: Event)
    requires Fifos(s) && Enabled(s, e)
    ensures Fifos(Apply(s, e))
  {
    match e
    case Produce(p, ps) => ProducerFifos(s, p, ps);
    case Allocate(_) =>
    case Work(w, ws) => WorkerFifos(s, w, ws);
    case Consume(c, cs) => ConsumerFifos(s, c, cs);
  }

  /** What a worker holds and has scheduled changes only as it takes a node. */
  lemma WorkerInOrder(s: State, i: nat, e: WorkerStep)
    requires i < |s.workers| && WorkerEnabled(s, s.workers[i], e)
    requires s.hist.popped == s.hist.scheduled + InOrder(InWorker(s.workers[i]))
    ensures var t := WorkerApply(s, i, e); t.hist.popped == t.hist.scheduled + InOrder(InWorker(t.workers[i]))
  {
  }

  lemma WorkerOrderStep(s: State, e: Event)
    requires WorkerOrder(s) && Enabled(s, e)
    ensures WorkerOrder(Apply(s, e))
  {
    match e
    case Produce(_, _) =>
    case Allocate(_) =>
    case Work(w, ws) =>
      if |s.workers| == 1 {
        WorkerInOrder(s, w, ws);
      }
    case Consume(_, _) =>
  }

  lemma ConsumerInOrder(s: State, i: nat, e: ConsumerStep)
    requires i < |s.consumers| && ConsumerEnabled(s, s.consumers[i], e)
    requires s.hist.removed == s.hist.executed + InOrder(NotExecuted(s.consumers[i]))
    ensures var t := ConsumerApply(s, i, e); t.hist.removed == t.hist.executed + InOrder(NotExecuted(t.consumers[i]))
  {
  }

  lemma ConsumerOrderStep(s: State, e: Event)
    requires ConsumerOrder(s) && Enabled(s, e)
    ensures ConsumerOrder(Apply(s, e))
  {
    match e
    case Produce(_, _) =>
    case Allocate(_) =>
    case Work(_, _) =>
    case Consume(c, cs) =>
      if |s.consumers| == 1 {
        ConsumerInOrder(s, c, cs);
      }
  }

  lemma LagsStep(s: State, e: Event)
    requires Lags(s) && Enabled(s, e)
    ensures Lags(Apply(s, e))
  {
    match e
    case Produce(_, _) =>
    case Allocate(_) =>
    case Work(w, ws) => WorkerLags(s, w, ws);
    case Consume(c, cs) => ConsumerLags(s, c, cs);
  }

  lemma PayloadStep(s: State, e: Event)
    requires Payload(s) && Enabled(s, e)
    ensures Payload(Apply(s, e))
  {
  }

  lemma InvStep(s: State, e: Event)
    requires Inv(s) && Enabled(s, e)
    ensures Inv(Apply(s, e))
  {
    PendLockStep(s, e);
    SchLockStep(s, e);
    FoundStep(s, e);
    SemaphoresStep(s, e);
    TriggersStep(s, e);
    forall n ensures Hands(Apply(s, e), n) {
      HandsStep(s, e, n);
    }
    WrappersStep(s, e);
    FifosStep(s, e);
    WorkerOrderStep(s, e);
    ConsumerOrderStep(s, e);
    LagsStep(s, e);
    PayloadStep(s, e);
  }

  // ----- every run -----

  lemma SemaphoresInit(s: State)
    requires s.semEmpty == TASK_MAXNUM && s.semFull == 0 && s.schedule == []
    requires forall i :: 0 <= i < |s.workers| ==> s.workers[i].WIdle?
    requires forall i :: 0 <= i < |s.consumers| ==> s.consumers[i].CWait?
    ensures Semaphores(s)
  {
    SumZero(ReservedSlot, s.workers);
    SumZero(UnpostedInsert, s.workers);
    SumZero(TakenToken, s.consumers);
    SumZero(UnpostedRemoval, s.consumers);
  }

  lemma CountsInit(producers: nat, workers: nat, consumers: nat)
    ensures Triggers(Init(producers, workers, consumers)) && Lags(Init(producers, workers, consumers))
    ensures Wrappers(Init(producers, workers, consumers))
  {
    var s := Init(producers, workers, consumers);
    SumZero(OwedTrigger, s.producers);
    SumZero(OpenJob, s.workers);
    SumZero(WorkerLoad, s.workers);
    SumZero(ConsumerLoad, s.consumers);
    SumZero(HoldsTaskl, s.workers);
    SumZero(CarriesTaskl, s.consumers);
  }

  lemma HandsInit(producers: nat, workers: nat, consumers: nat, n: Node)
    ensures Hands(Init(producers, workers, consumers), n)
  {
    var s := Init(producers, workers, consumers);
    HeldNone(InProducer, s.producers, n);
    HeldNone(InWorker, s.workers, n);
    HeldNone(NotExecuted, s.consumers, n);
    HeldNone(NotFreed, s.consumers, n);
  }

  lemma InvInit(producers: nat, workers: nat, consumers: nat)
    ensures Inv(Init(producers, workers, consumers))
  {
    var s := Init(producers, workers, consumers);
    SemaphoresInit(s);
    CountsInit(producers, workers, consumers);
    forall n ensures Hands(s, n) {
      HandsInit(producers, workers, consumers, n);
    }
  }

  /** Every reachable state satisfies every invariant. */
  lemma {:induction false} InvAlways(producers: nat, workers: nat, consumers: nat, es: seq<Event>)
    requires Possible(Init(producers, workers, consumers), es)
    ensures Inv(After(Init(producers, workers, consumers), es))
  {
    var s := Init(producers, workers, consumers);
    if es == [] {
      InvInit(producers, workers, consumers);
    } else {
      var front := es[..|es| - 1];
      InvAlways(producers, workers, consumers, front);
      InvStep(After(s, front), es[|es| - 1]);
    }
  }
}
