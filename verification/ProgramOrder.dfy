/** Each thread's steps come in the order of its program text: what a thread can do next is decided by what it did
    last and by the lock, semaphore or queue that the next line waits for. */
module ProgramOrder {
  import opened Counting
  import opened Pipeline
  import opened PipelineInvariants
  import opened PipelineTheorems
  import opened PipelineEvents

  // ----- the steps of one thread in a run -----

  function ProducerSteps(es: seq<Event>, p: nat): seq<ProducerStep> {
    if es == [] then []
    else
      var front, last := es[..|es| - 1], es[|es| - 1];
      ProducerSteps(front, p) + if last.Produce? && last.p == p then [last.pstep] else []
  }

  function AllocatorSteps(es: seq<Event>): seq<AllocatorStep> {
    if es == [] then []
    else
      var front, last := es[..|es| - 1], es[|es| - 1];
      AllocatorSteps(front) + if last.Allocate? then [last.astep] else []
  }

  function WorkerSteps(es: seq<Event>, w: nat): seq<WorkerStep> {
    if es == [] then []
    else
      var front, last := es[..|es| - 1], es[|es| - 1];
      WorkerSteps(front, w) + if last.Work? && last.w == w then [last.wstep] else []
  }

  function ConsumerSteps(es: seq<Event>, c: nat): seq<ConsumerStep> {
    if es == [] then []
    else
      var front, last := es[..|es| - 1], es[|es| - 1];
      ConsumerSteps(front, c) + if last.Consume? && last.c == c then [last.cstep] else []
  }

  lemma StepsAppend(es: seq<Event>, e: Event, i: nat)
    ensures ProducerSteps(es + [e], i) == ProducerSteps(es, i) + if e.Produce? && e.p == i then [e.pstep] else []
    ensures AllocatorSteps(es + [e]) == AllocatorSteps(es) + if e.Allocate? then [e.astep] else []
    ensures WorkerSteps(es + [e], i) == WorkerSteps(es, i) + if e.Work? && e.w == i then [e.wstep] else []
    ensures ConsumerSteps(es + [e], i) == ConsumerSteps(es, i) + if e.Consume? && e.c == i then [e.cstep] else []
  {
    assert (es + [e])[..|es|] == es;
  }

  // ----- the program texts -----

  /** `event_serial` is at the top of its loop: it has just started, written or failed to write a trigger byte, or
      failed to allocate a node. */
  predicate ReaderAtTop(done: seq<ProducerStep>) {
    done == [] || var last := done[|done| - 1]; last.TriggerWrite? || last.TriggerFail? || last.SerialAllocFail?
  }

  /** What `event_serial` does next, if it need not wait. Nothing comes after SerialStop. */
  predicate ProducerNext(done: seq<ProducerStep>, e: ProducerStep) {
    match e
    case SerialRead(_) => ReaderAtTop(done)
    case SerialStop => ReaderAtTop(done)
    case SerialAlloc(_) => done != [] && done[|done| - 1].SerialRead?
    case SerialAllocFail => done != [] && done[|done| - 1].SerialRead?
    case PendingLock => done != [] && done[|done| - 1].SerialAlloc?
    case PendingLink => done != [] && done[|done| - 1].PendingLock?
    case PendingUnlock => done != [] && done[|done| - 1].PendingLink?
    case TriggerWrite => done != [] && done[|done| - 1].PendingUnlock?
    case TriggerFail => done != [] && done[|done| - 1].PendingUnlock?
  }

  predicate ProducerReady(s: State, e: ProducerStep) {
    match e
    case SerialRead(chunk) => 1 <= |chunk| <= CHUNK_SIZE
    case SerialAlloc(junk) => |junk| == DATA_SIZE - CHUNK_SIZE
    case PendingLock => s.pendLock.Free?
    case TriggerWrite => s.fifo < FIFO_SIZE
    case _ => true
  }

  /** `task_allocate` reads, tests, and then either adds a job or reads again. */
  predicate AllocatorNext(done: seq<AllocatorStep>, e: AllocatorStep) {
    var tested := done != [] && done[|done| - 1].AllocatorTest?;
    var woken := done != [] && (done[|done| - 1].TriggerRead? || done[|done| - 1].TriggerReadFail?);
    match e
    case TriggerRead(_) => !woken
    case TriggerReadFail => !woken
    case AllocatorTest => woken
    case AddWork => tested
    case AddWorkFail => tested
  }

  predicate AllocatorReady(s: State, e: AllocatorStep) {
    e.TriggerRead? ==> 1 <= e.n <= BATCH_SIZE && e.n <= s.fifo
  }

  /** The worker has unlocked pendlock, after taking a node or after finding none. */
  predicate Unlocked(done: seq<WorkerStep>, taken: bool) {
    && |done| >= 2 && done[|done| - 1].AcquireUnlock?
    && if taken then done[|done| - 2].AcquirePop? else done[|done| - 2].AcquireTest?
  }

  predicate WorkerAtTop(done: seq<WorkerStep>) {
    done == [] || var last := done[|done| - 1]; last.FullPost? || last.TaskDrop? || last.TaskAllocFail?
  }

  /** What a pool thread does next in `task_allocte_resources`, if it need not wait. */
  predicate WorkerNext(done: seq<WorkerStep>, e: WorkerStep) {
    match e
    case TakeJob => WorkerAtTop(done)
    case TaskAlloc => done != [] && done[|done| - 1].TakeJob?
    case TaskAllocFail => done != [] && done[|done| - 1].TakeJob?
    case AcquireLock => done != [] && done[|done| - 1].TaskAlloc?
    case AcquireTest => done != [] && done[|done| - 1].AcquireLock?
    case AcquirePop => done != [] && done[|done| - 1].AcquireTest?
    case AcquireUnlock => done != [] && (done[|done| - 1].AcquireTest? || done[|done| - 1].AcquirePop?)
    case TaskDrop => Unlocked(done, false)
    case SlotWait => Unlocked(done, true)
    case ScheduleLock => done != [] && done[|done| - 1].SlotWait?
    case ScheduleInsert => done != [] && done[|done| - 1].ScheduleLock?
    case ScheduleUnlock => done != [] && done[|done| - 1].ScheduleInsert?
    case FullPost => done != [] && done[|done| - 1].ScheduleUnlock?
  }

  /** After its test under the lock a worker takes a node if there is one and unlocks if there is none. */
  predicate WorkerReady(s: State, done: seq<WorkerStep>, e: WorkerStep) {
    match e
    case TakeJob => s.jobs > 0
    case AcquireLock => s.pendLock.Free?
    case AcquirePop => s.pending != []
    case AcquireUnlock => done != [] && done[|done| - 1].AcquireTest? ==> s.pending == []
    case SlotWait => s.semEmpty > 0
    case ScheduleLock => s.schLock.Free?
    case _ => true
  }

  /** What a thread running `task_schedule` does next, if it need not wait. Its test never finds the list empty. */
  predicate ConsumerNext(done: seq<ConsumerStep>, e: ConsumerStep) {
    match e
    case FullWait => done == [] || done[|done| - 1].Recycle?
    case RemoveLock => done != [] && done[|done| - 1].FullWait?
    case RemoveTest => done != [] && done[|done| - 1].RemoveLock?
    case RemovePop => done != [] && done[|done| - 1].RemoveTest?
    case RemoveUnlock => done != [] && done[|done| - 1].RemovePop?
    case EmptyPost => done != [] && done[|done| - 1].RemoveUnlock?
    case Execute => done != [] && done[|done| - 1].EmptyPost?
    case Recycle => done != [] && done[|done| - 1].Execute?
  }

  predicate ConsumerReady(s: State, e: ConsumerStep) {
    match e
    case FullWait => s.semFull > 0
    case RemoveLock => s.schLock.Free?
    case _ => true
  }

  // ----- where a thread stands -----

  predicate ProducerAt(done: seq<ProducerStep>, pc: Producer) {
    match pc
    case PIdle => ReaderAtTop(done)
    case PGot(chunk) => done != [] && done[|done| - 1] == SerialRead(chunk)
    case PHolding(_) => done != [] && done[|done| - 1].SerialAlloc?
    case PLocked(_) => done != [] && done[|done| - 1].PendingLock?
    case PLinked => done != [] && done[|done| - 1].PendingLink?
    case PTrigger => done != [] && done[|done| - 1].PendingUnlock?
    case PStopped => done != [] && done[|done| - 1].SerialStop?
  }

  predicate AllocatorAt(done: seq<AllocatorStep>, pc: Allocator) {
    match pc
    case AWait => done != [] ==> !done[|done| - 1].TriggerRead? && !done[|done| - 1].TriggerReadFail?
    case ATest => done != [] && (done[|done| - 1].TriggerRead? || done[|done| - 1].TriggerReadFail?)
    case ADispatch => done != [] && done[|done| - 1].AllocatorTest?
  }

  predicate WorkerAt(done: seq<WorkerStep>, pc: Worker) {
    match pc
    case WIdle => WorkerAtTop(done)
    case WStart => done != [] && done[|done| - 1].TakeJob?
    case WWantPend => done != [] && done[|done| - 1].TaskAlloc?
    case WInPend => done != [] && done[|done| - 1].AcquireLock?
    case WFound => done != [] && done[|done| - 1].AcquireTest?
    case WNone => done != [] && done[|done| - 1].AcquireTest?
    case WDrop => Unlocked(done, false)
    case WPopped(_) => done != [] && done[|done| - 1].AcquirePop?
    case WHolding(_) => Unlocked(done, true)
    case WSlot(_) => done != [] && done[|done| - 1].SlotWait?
    case WInSch(_) => done != [] && done[|done| - 1].ScheduleLock?
    case WInserted => done != [] && done[|done| - 1].ScheduleInsert?
    case WPosting => done != [] && done[|done| - 1].ScheduleUnlock?
  }

  predicate ConsumerAt(done: seq<ConsumerStep>, pc: Consumer) {
    match pc
    case CWait => done == [] || done[|done| - 1].Recycle?
    case CToken => done != [] && done[|done| - 1].FullWait?
    case CInSch => done != [] && done[|done| - 1].RemoveLock?
    case CFound => done != [] && done[|done| - 1].RemoveTest?
    case CEmptyExit => false
    case CRemoved(_) => done != [] && done[|done| - 1].RemovePop?
    case CPosting(_) => done != [] && done[|done| - 1].RemoveUnlock?
    case CHolding(_) => done != [] && done[|done| - 1].EmptyPost?
    case CExecuted(_) => done != [] && done[|done| - 1].Execute?
  }

  ghost predicate InOrder(s: State, es: seq<Event>) {
    && (forall p :: 0 <= p < |s.producers| ==> ProducerAt(ProducerSteps(es, p), s.producers[p]))
    && AllocatorAt(AllocatorSteps(es), s.allocator)
    && (forall w :: 0 <= w < |s.workers| ==> WorkerAt(WorkerSteps(es, w), s.workers[w]))
    && forall c :: 0 <= c < |s.consumers| ==> ConsumerAt(ConsumerSteps(es, c), s.consumers[c])
  }

  lemma ProducerMoves(s: State, i: nat, e: ProducerStep, done: seq<ProducerStep>)
    requires i < |s.producers| && ProducerEnabled(s, s.producers[i], e) && ProducerAt(done, s.producers[i])
    ensures ProducerAt(done + [e], ProducerApply(s, i, e).producers[i])
  {
  }

  lemma AllocatorMoves(s: State, e: AllocatorStep, done: seq<AllocatorStep>)
    requires AllocatorEnabled(s, s.allocator, e) && AllocatorAt(done, s.allocator)
    ensures AllocatorAt(done + [e], AllocatorApply(s, e).allocator)
  {
  }

  lemma WorkerMoves(s: State, i: nat, e: WorkerStep, done: seq<WorkerStep>)
    requires i < |s.workers| && WorkerEnabled(s, s.workers[i], e) && WorkerAt(done, s.workers[i])
    ensures WorkerAt(done + [e], WorkerApply(s, i, e).workers[i])
  {
    if e.AcquireUnlock? {
      assert (done + [e])[|done| - 1] == done[|done| - 1];
    }
  }

  lemma ConsumerMoves(s: State, i: nat, e: ConsumerStep, done: seq<ConsumerStep>)
    requires i < |s.consumers| && ConsumerEnabled(s, s.consumers[i], e) && ConsumerAt(done, s.consumers[i])
    requires !ConsumerApply(s, i, e).consumers[i].CEmptyExit?
    ensures ConsumerAt(done + [e], ConsumerApply(s, i, e).consumers[i])
  {
  }

  lemma ReadersInOrderStep(s: State, es: seq<Event>, e: Event)
    requires InOrder(s, es) && Enabled(s, e)
    ensures var t := Apply(s, e);
      forall p :: 0 <= p < |t.producers| ==> ProducerAt(ProducerSteps(es + [e], p), t.producers[p])
  {
    var t := Apply(s, e);
    forall p | 0 <= p < |t.producers| ensures ProducerAt(ProducerSteps(es + [e], p), t.producers[p]) {
      StepsAppend(es, e, p);
      if e.Produce? && e.p == p {
        ProducerMoves(s, p, e.pstep, ProducerSteps(es, p));
      }
    }
  }

  lemma AllocatorInOrderStep(s: State, es: seq<Event>, e: Event)
    requires InOrder(s, es) && Enabled(s, e)
    ensures AllocatorAt(AllocatorSteps(es + [e]), Apply(s, e).allocator)
  {
    StepsAppend(es, e, 0);
    if e.Allocate? {
      AllocatorMoves(s, e.astep, AllocatorSteps(es));
    }
  }

  lemma WorkersInOrderStep(s: State, es: seq<Event>, e: Event)
    requires InOrder(s, es) && Enabled(s, e)
    ensures var t := Apply(s, e);
      forall w :: 0 <= w < |t.workers| ==> WorkerAt(WorkerSteps(es + [e], w), t.workers[w])
  {
    var t := Apply(s, e);
    forall w | 0 <= w < |t.workers| ensures WorkerAt(WorkerSteps(es + [e], w), t.workers[w]) {
      StepsAppend(es, e, w);
      if e.Work? && e.w == w {
        WorkerMoves(s, w, e.wstep, WorkerSteps(es, w));
      }
    }
  }

  lemma ConsumersInOrderStep(s: State, es: seq<Event>, e: Event)
    requires InOrder(s, es) && Semaphores(s) && Enabled(s, e)
    ensures var t := Apply(s, e);
      forall c :: 0 <= c < |t.consumers| ==> ConsumerAt(ConsumerSteps(es + [e], c), t.consumers[c])
  {
    var t := Apply(s, e);
    SemaphoresStep(s, e);
    forall c | 0 <= c < |t.consumers| ensures ConsumerAt(ConsumerSteps(es + [e], c), t.consumers[c]) {
      StepsAppend(es, e, c);
      if e.Consume? && e.c == c {
        ConsumerMoves(s, c, e.cstep, ConsumerSteps(es, c));
      }
    }
  }

  lemma InOrderStep(s: State, es: seq<Event>, e: Event)
    requires InOrder(s, es) && Semaphores(s) && Enabled(s, e)
    ensures InOrder(Apply(s, e), es + [e])
  {
    ReadersInOrderStep(s, es, e);
    AllocatorInOrderStep(s, es, e);
    WorkersInOrderStep(s, es, e);
    ConsumersInOrderStep(s, es, e);
  }

  ghost predicate Ordered(s: State, es: seq<Event>) {
    Semaphores(s) && InOrder(s, es)
  }

  lemma OrderedStep(s: State, es: seq<Event>, e: Event)
    requires Ordered(s, es) && Enabled(s, e)
    ensures Ordered(Apply(s, e), es + [e])
  {
    SemaphoresStep(s, e);
    InOrderStep(s, es, e);
  }

  lemma OrderedInit(producers: nat, workers: nat, consumers: nat)
    ensures Ordered(Init(producers, workers, consumers), [])
  {
    SemaphoresInit(Init(producers, workers, consumers));
  }

  lemma AlwaysOrdered(producers: nat, workers: nat, consumers: nat, es: seq<Event>)
    requires Possible(Init(producers, workers, consumers), es)
    ensures Ordered(After(Init(producers, workers, consumers), es), es)
  {
    OrderedInit(producers, workers, consumers);
    forall s, fs, e | Ordered(s, fs) && Enabled(s, e) ensures Ordered(Apply(s, e), fs + [e]) {
      OrderedStep(s, fs, e);
    }
    RunInduction(Ordered, Init(producers, workers, consumers), es);
  }

  // ----- what a thread can do next -----

  /** A reader can take exactly the step that its program text has next, once it need not wait for it. */
  ghost predicate ReaderFollows(s: State, es: seq<Event>) {
    forall p: nat, e :: Enabled(s, Produce(p, e)) <==>
      p < |s.producers| && ProducerNext(ProducerSteps(es, p), e) && ProducerReady(s, e)
  }

  /** The same of the allocator, which after a test can take exactly one of the two branches. */
  ghost predicate AllocatorFollows(s: State, es: seq<Event>) {
    var done := AllocatorSteps(es);
    var tested := done != [] && done[|done| - 1].AllocatorTest?;
    && (forall e :: Enabled(s, Allocate(e)) ==> AllocatorNext(done, e) && AllocatorReady(s, e))
    && (forall e :: AllocatorNext(done, e) && AllocatorReady(s, e) && !tested ==> Enabled(s, Allocate(e)))
    && (tested ==> (Enabled(s, Allocate(AddWork)) <==> !Enabled(s, Allocate(TriggerReadFail))))
    && (Enabled(s, Allocate(AddWork)) <==> Enabled(s, Allocate(AddWorkFail)))
  }

  /** The same of a pool thread. */
  ghost predicate WorkerFollows(s: State, es: seq<Event>) {
    forall w: nat, e :: Enabled(s, Work(w, e)) <==>
      && w < |s.workers|
      && WorkerNext(WorkerSteps(es, w), e) && WorkerReady(s, WorkerSteps(es, w), e)
  }

  /** The same of a scheduler thread. */
  ghost predicate SchedulerFollows(s: State, es: seq<Event>) {
    forall c: nat, e :: Enabled(s, Consume(c, e)) <==>
      c < |s.consumers| && ConsumerNext(ConsumerSteps(es, c), e) && ConsumerReady(s, e)
  }

  lemma ReaderExact(s: State, done: seq<ProducerStep>, pc: Producer, e: ProducerStep)
    requires ProducerAt(done, pc) && (pc.PGot? ==> |pc.chunk| <= CHUNK_SIZE)
    ensures ProducerEnabled(s, pc, e) <==> ProducerNext(done, e) && ProducerReady(s, e)
  {
  }

  lemma WorkerExact(s: State, done: seq<WorkerStep>, pc: Worker, e: WorkerStep)
    requires WorkerAt(done, pc) && (pc.WFound? ==> s.pending != []) && (pc.WNone? ==> s.pending == [])
    ensures WorkerEnabled(s, pc, e) <==> WorkerNext(done, e) && WorkerReady(s, done, e)
  {
  }

  lemma SchedulerExact(s: State, done: seq<ConsumerStep>, pc: Consumer, e: ConsumerStep)
    requires ConsumerAt(done, pc) && (pc.CFound? ==> s.schedule != [])
    ensures ConsumerEnabled(s, pc, e) <==> ConsumerNext(done, e) && ConsumerReady(s, e)
  {
  }

  lemma EachFollows(s: State, es: seq<Event>)
    requires InOrder(s, es) && Found(s) && Payload(s)
    ensures ReaderFollows(s, es) && AllocatorFollows(s, es) && WorkerFollows(s, es) && SchedulerFollows(s, es)
  {
    forall p: nat, e ensures Enabled(s, Produce(p, e)) <==>
      p < |s.producers| && ProducerNext(ProducerSteps(es, p), e) && ProducerReady(s, e)
    {
      if p < |s.producers| {
        ReaderExact(s, ProducerSteps(es, p), s.producers[p], e);
      }
    }
    forall w: nat, e ensures Enabled(s, Work(w, e)) <==>
      w < |s.workers| && WorkerNext(WorkerSteps(es, w), e) && WorkerReady(s, WorkerSteps(es, w), e)
    {
      if w < |s.workers| {
        WorkerExact(s, WorkerSteps(es, w), s.workers[w], e);
      }
    }
    forall c: nat, e ensures Enabled(s, Consume(c, e)) <==>
      c < |s.consumers| && ConsumerNext(ConsumerSteps(es, c), e) && ConsumerReady(s, e)
    {
      if c < |s.consumers| {
        SchedulerExact(s, ConsumerSteps(es, c), s.consumers[c], e);
      }
    }
  }

  /** In every state of every run, what each thread did so far decides what it can do next. */
  lemma FollowsProgram(producers: nat, workers: nat, consumers: nat, es: seq<Event>)
    requires Possible(Init(producers, workers, consumers), es)
    ensures var s := After(Init(producers, workers, consumers), es);
      ReaderFollows(s, es) && AllocatorFollows(s, es) && WorkerFollows(s, es) && SchedulerFollows(s, es)
  {
    var s := After(Init(producers, workers, consumers), es);
    AlwaysOrdered(producers, workers, consumers, es);
    InvAlways(producers, workers, consumers, es);
    EachFollows(s, es);
  }
}
