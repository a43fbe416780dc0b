/** The two-stage task pipeline of src/sys_task.c, fed by src/sys_serial_event.c, as a transition system.
    Each event is one atomic step of one thread; a run is any interleaving of enabled events. */
module Pipeline {

  const TASK_MAXNUM: nat := 2048
  const DATA_SIZE: nat := 8192
  const CHUNK_SIZE: nat := 100
  const BATCH_SIZE: nat := 127
  const FIFO_SIZE: nat := 65536       // what a FIFO holds before a write waits

  /** A `pending` node: its allocation number and its `command` buffer. */
  datatype Node = Node(id: nat, command: seq<bv8>)

  /** Program counters of `event_serial`, with the node or buffer held in local variables. */
  datatype Producer =
    | PIdle                       // at the read
    | PGot(chunk: seq<bv8>)       // bytes read, before malloc
    | PHolding(node: Node)        // before locking pendlock
    | PLocked(node: Node)         // pendlock held, before list_add_tail
    | PLinked                     // linked, before unlocking pendlock
    | PTrigger                    // before writing the trigger byte
    | PStopped                    // uCrunning cleared

  /** Program counters of `task_allocate`. */
  datatype Allocator =
    | AWait                       // before reading the trigger FIFO
    | ATest                       // before the unlocked list_empty
    | ADispatch                   // before tpool_add_work

  /** Program counters of a pool thread around `task_allocte_resources`. */
  datatype Worker =
    | WIdle
    | WStart                      // job taken, before malloc of the taskl
    | WWantPend                   // before locking pendlock
    | WInPend                     // pendlock held, before list_empty
    | WFound                      // list seen non-empty, before list_del
    | WNone                       // list seen empty, before unlocking
    | WDrop                       // before freeing the taskl that got no node
    | WPopped(node: Node)         // after list_del, before unlocking
    | WHolding(node: Node)        // before sem_wait(tasksem_empty)
    | WSlot(node: Node)           // before locking taskschlock
    | WInSch(node: Node)          // taskschlock held, before list_add_tail
    | WInserted                   // before unlocking taskschlock
    | WPosting                    // before sem_post(tasksem_full)

  /** Program counters of a thread running `task_schedule`. */
  datatype Consumer =
    | CWait                       // before sem_wait(tasksem_full)
    | CToken                      // before locking taskschlock
    | CInSch                      // taskschlock held, before list_empty
    | CFound                      // list seen non-empty, before list_del
    | CEmptyExit                  // list seen empty, before unlocking
    | CRemoved(node: Node)        // after list_del, before unlocking
    | CPosting(node: Node)        // before sem_post(tasksem_empty)
    | CHolding(node: Node)        // before task_excute
    | CExecuted(node: Node)       // executed, before task_node_recycle

  datatype Holder = Free | HeldByProducer(p: nat) | HeldByWorker(w: nat) | HeldByConsumer(c: nat)

  /** What the run has done so far; no step reads it. */
  datatype History = History(
    chunks: seq<seq<bv8>>,        // the serial chunk behind each allocated node
    dropped: seq<seq<bv8>>,       // the chunks for which no node could be allocated
    created: seq<Node>,
    arrivals: seq<Node>,          // in the order linked into the pending list
    popped: seq<Node>,            // in the order taken from the pending list
    scheduled: seq<Node>,         // in the order linked into the schedule list
    removed: seq<Node>,           // in the order taken from the schedule list
    executed: seq<Node>,
    freed: seq<Node>,
    swallowed: nat,               // trigger bytes beyond the first of each read
    failedTriggers: nat,
    failedDispatches: nat,
    failedAllocs: nat,
    spurious: nat,                // wake-ups without a byte: failed reads of the FIFO
    wasted: nat,                  // wake-ups that found the pending list empty
    tasklsAllocated: nat,
    tasklsFreed: nat)

  datatype State = State(
    producers: seq<Producer>,
    allocator: Allocator,
    workers: seq<Worker>,
    consumers: seq<Consumer>,
    fifo: nat,                    // unread trigger bytes
    jobs: nat,                    // queued pool jobs
    pending: seq<Node>,
    schedule: seq<Node>,
    pendLock: Holder,
    schLock: Holder,
    semEmpty: nat,
    semFull: nat,
    hist: History)

  /** Steps of `event_serial`. */
  datatype ProducerStep =
    | SerialRead(chunk: seq<bv8>)
    | SerialStop
    | SerialAlloc(junk: seq<bv8>)             // `junk` is what malloc left beyond the copied bytes
    | SerialAllocFail
    | PendingLock
    | PendingLink
    | PendingUnlock
    | TriggerWrite
    | TriggerFail

  /** Steps of `task_allocate`. */
  datatype AllocatorStep =
    | TriggerRead(n: nat)
    | TriggerReadFail
    | AllocatorTest
    | AddWork
    | AddWorkFail

  /** Steps of a pool thread around `task_allocte_resources`. */
  datatype WorkerStep =
    | TakeJob
    | TaskAlloc
    | TaskAllocFail
    | AcquireLock
    | AcquireTest
    | AcquirePop
    | AcquireUnlock
    | TaskDrop
    | SlotWait
    | ScheduleLock
    | ScheduleInsert
    | ScheduleUnlock
    | FullPost

  /** Steps of a thread running `task_schedule`. */
  datatype ConsumerStep =
    | FullWait
    | RemoveLock
    | RemoveTest
    | RemovePop
    | RemoveUnlock
    | EmptyPost
    | Execute
    | Recycle

  /** One step of one thread. */
  datatype Event =
    | Produce(p: nat, pstep: ProducerStep)
    | Allocate(astep: AllocatorStep)
    | Work(w: nat, wstep: WorkerStep)
    | Consume(c: nat, cstep: ConsumerStep)

  /** The received bytes followed by the zeros that memset left, as far as memcpy copies. */
  function Padded(chunk: seq<bv8>): (r: seq<bv8>)
    requires |chunk| <= CHUNK_SIZE
    ensures |r| == CHUNK_SIZE && r[..|chunk|] == chunk && forall i :: |chunk| <= i < CHUNK_SIZE ==> r[i] == 0
  {
    chunk + seq(CHUNK_SIZE - |chunk|, _ => 0 as bv8)
  }

  predicate ProducerEnabled(s: State, pc: Producer, e: ProducerStep) {
    match e
    case SerialRead(chunk) => pc.PIdle? && 1 <= |chunk| <= CHUNK_SIZE
    case SerialStop => pc.PIdle?
    case SerialAlloc(junk) => pc.PGot? && |pc.chunk| <= CHUNK_SIZE && |junk| == DATA_SIZE - CHUNK_SIZE
    case SerialAllocFail => pc.PGot?
    case PendingLock => pc.PHolding? && s.pendLock.Free?
    case PendingLink => pc.PLocked?
    case PendingUnlock => pc.PLinked?
    case TriggerWrite => pc.PTrigger? && s.fifo < FIFO_SIZE
    case TriggerFail => pc.PTrigger?
  }

  predicate AllocatorEnabled(s: State, pc: Allocator, e: AllocatorStep) {
    match e
    case TriggerRead(n) => pc.AWait? && 1 <= n <= BATCH_SIZE && n <= s.fifo
    case TriggerReadFail => pc.AWait?
    case AllocatorTest => pc.ATest?
    case AddWork => pc.ADispatch?
    case AddWorkFail => pc.ADispatch?
  }

  predicate WorkerEnabled(s: State, pc: Worker, e: WorkerStep) {
    match e
    case TakeJob => pc.WIdle? && s.jobs > 0
    case TaskAlloc => pc.WStart?
    case TaskAllocFail => pc.WStart?
    case AcquireLock => pc.WWantPend? && s.pendLock.Free?
    case AcquireTest => pc.WInPend?
    case AcquirePop => pc.WFound? && s.pending != []
    case AcquireUnlock => pc.WNone? || pc.WPopped?
    case TaskDrop => pc.WDrop?
    case SlotWait => pc.WHolding? && s.semEmpty > 0
    case ScheduleLock => pc.WSlot? && s.schLock.Free?
    case ScheduleInsert => pc.WInSch?
    case ScheduleUnlock => pc.WInserted?
    case FullPost => pc.WPosting?
  }

  predicate ConsumerEnabled(s: State, pc: Consumer, e: ConsumerStep) {
    match e
    case FullWait => pc.CWait? && s.semFull > 0
    case RemoveLock => pc.CToken? && s.schLock.Free?
    case RemoveTest => pc.CInSch?
    case RemovePop => pc.CFound? && s.schedule != []
    case RemoveUnlock => pc.CEmptyExit? || pc.CRemoved?
    case EmptyPost => pc.CPosting?
    case Execute => pc.CHolding?
    case Recycle => pc.CExecuted?
  }

  predicate Enabled(s: State, e: Event) {
    match e
    case Produce(p, ps) => p < |s.producers| && ProducerEnabled(s, s.producers[p], ps)
    case Allocate(a) => AllocatorEnabled(s, s.allocator, a)
    case Work(w, ws) => w < |s.workers| && WorkerEnabled(s, s.workers[w], ws)
    case Consume(c, cs) => c < |s.consumers| && ConsumerEnabled(s, s.consumers[c], cs)
  }

  /** What only the producers add to. */
  predicate SameInput(g: History, h: History) {
    g.chunks == h.chunks && g.dropped == h.dropped && g.created == h.created && g.arrivals == h.arrivals
  }

  /** What only the scheduler threads add to. */
  predicate SameOutput(g: History, h: History) {
    g.removed == h.removed && g.executed == h.executed && g.freed == h.freed
  }

  /** What only the workers and the scheduler threads add to. */
  predicate SameTransit(g: History, h: History) {
    g.popped == h.popped && g.scheduled == h.scheduled && SameOutput(g, h)
  }

  // What a thread owes to the wake-up that it is serving.

  function OwedTrigger(pc: Producer): nat { if pc.PLinked? || pc.PTrigger? then 1 else 0 }
  function OpenBatch(pc: Allocator): nat { if pc.AWait? then 0 else 1 }
  function OpenJob(pc: Worker): nat { if pc.WStart? || pc.WWantPend? || pc.WInPend? || pc.WFound? then 1 else 0 }

  /** Only linking makes a node pending, and every linked node is owed one trigger, written or failed. */
  function ProducerApply(s: State, i: nat, e: ProducerStep): (t: State)
    requires i < |s.producers| && ProducerEnabled(s, s.producers[i], e)
    ensures t.workers == s.workers && t.consumers == s.consumers && t.allocator == s.allocator && t.jobs == s.jobs
    ensures t.schedule == s.schedule && t.schLock == s.schLock && t.semEmpty == s.semEmpty && t.semFull == s.semFull
    ensures SameTransit(s.hist, t.hist)
    ensures |t.producers| == |s.producers| && t.producers == s.producers[i := t.producers[i]]
    ensures t.pending == if e.PendingLink? then s.pending + [s.producers[i].node] else s.pending
    ensures |t.pending| + OwedTrigger(s.producers[i]) + s.fifo + s.hist.failedTriggers
         == |s.pending| + OwedTrigger(t.producers[i]) + t.fifo + t.hist.failedTriggers
  {
    var pc := s.producers[i];
    var h := s.hist;
    match e
    case SerialRead(chunk) => s.(producers := s.producers[i := PGot(chunk)])
    case SerialStop => s.(producers := s.producers[i := PStopped])
    case SerialAlloc(junk) =>
      var n := Node(|h.created|, Padded(pc.chunk) + junk);
      s.(producers := s.producers[i := PHolding(n)],
         hist := h.(chunks := h.chunks + [pc.chunk], created := h.created + [n]))
    case SerialAllocFail => s.(producers := s.producers[i := PIdle], hist := h.(dropped := h.dropped + [pc.chunk]))
    case PendingLock => s.(producers := s.producers[i := PLocked(pc.node)], pendLock := HeldByProducer(i))
    case PendingLink =>
      s.(producers := s.producers[i := PLinked], pending := s.pending + [pc.node],
         hist := h.(arrivals := h.arrivals + [pc.node]))
    case PendingUnlock => s.(producers := s.producers[i := PTrigger], pendLock := Free)
    case TriggerWrite => s.(producers := s.producers[i := PIdle], fifo := s.fifo + 1)
    case TriggerFail =>
      s.(producers := s.producers[i := PIdle], hist := h.(failedTriggers := h.failedTriggers + 1))
  }

  /** Every trigger byte is swallowed or becomes a batch, and every batch a job, a failed dispatch or a waste. */
  function AllocatorApply(s: State, e: AllocatorStep): (t: State)
    requires AllocatorEnabled(s, s.allocator, e)
    ensures t.producers == s.producers && t.workers == s.workers && t.consumers == s.consumers
    ensures t.pending == s.pending && t.schedule == s.schedule && t.pendLock == s.pendLock && t.schLock == s.schLock
    ensures t.semEmpty == s.semEmpty && t.semFull == s.semFull
    ensures SameTransit(s.hist, t.hist) && SameInput(s.hist, t.hist)
    ensures t.fifo + t.hist.swallowed + OpenBatch(t.allocator) + t.jobs + t.hist.failedDispatches + t.hist.wasted
         == s.fifo + s.hist.swallowed + OpenBatch(s.allocator) + s.jobs + s.hist.failedDispatches + s.hist.wasted
            + (t.hist.spurious - s.hist.spurious)
    ensures e.AllocatorTest? ==> (t.allocator.ADispatch? <==> s.pending != [])
  {
    var h := s.hist;
    match e
    case TriggerRead(n) =>
      s.(allocator := ATest, fifo := s.fifo - n, hist := h.(swallowed := h.swallowed + (n - 1)))
    case TriggerReadFail => s.(allocator := ATest, hist := h.(spurious := h.spurious + 1))
    case AllocatorTest =>
      if s.pending == [] then s.(allocator := AWait, hist := h.(wasted := h.wasted + 1)) else s.(allocator := ADispatch)
    case AddWork => s.(allocator := AWait, jobs := s.jobs + 1)
    case AddWorkFail => s.(allocator := AWait, hist := h.(failedDispatches := h.failedDispatches + 1))
  }

  /** Every job ends in a failed allocation, a waste or the oldest pending node, and only such nodes are scheduled. */
  function WorkerApply(s: State, i: nat, e: WorkerStep): (t: State)
    requires i < |s.workers| && WorkerEnabled(s, s.workers[i], e)
    ensures t.producers == s.producers && t.consumers == s.consumers && t.allocator == s.allocator && t.fifo == s.fifo
    ensures SameInput(s.hist, t.hist) && SameOutput(s.hist, t.hist)
    ensures |t.workers| == |s.workers| && t.workers == s.workers[i := t.workers[i]]
    ensures t.pending == if e.AcquirePop? then s.pending[1..] else s.pending
    ensures t.jobs + OpenJob(t.workers[i]) + t.hist.failedAllocs + t.hist.wasted + |t.hist.popped|
         == s.jobs + OpenJob(s.workers[i]) + s.hist.failedAllocs + s.hist.wasted + |s.hist.popped|
    ensures t.schedule == if e.ScheduleInsert? then s.schedule + [s.workers[i].node] else s.schedule
  {
    var pc := s.workers[i];
    var h := s.hist;
    match e
    case TakeJob => s.(workers := s.workers[i := WStart], jobs := s.jobs - 1)
    case TaskAlloc =>
      s.(workers := s.workers[i := WWantPend], hist := h.(tasklsAllocated := h.tasklsAllocated + 1))
    case TaskAllocFail => s.(workers := s.workers[i := WIdle], hist := h.(failedAllocs := h.failedAllocs + 1))
    case AcquireLock => s.(workers := s.workers[i := WInPend], pendLock := HeldByWorker(i))
    case AcquireTest =>
      if s.pending == []
      then s.(workers := s.workers[i := WNone], hist := h.(wasted := h.wasted + 1))
      else s.(workers := s.workers[i := WFound])
    case AcquirePop =>
      s.(workers := s.workers[i := WPopped(s.pending[0])], pending := s.pending[1..],
         hist := h.(popped := h.popped + [s.pending[0]]))
    case AcquireUnlock =>
      s.(workers := s.workers[i := if pc.WNone? then WDrop else WHolding(pc.node)], pendLock := Free)
    case TaskDrop => s.(workers := s.workers[i := WIdle], hist := h.(tasklsFreed := h.tasklsFreed + 1))
    case SlotWait => s.(workers := s.workers[i := WSlot(pc.node)], semEmpty := s.semEmpty - 1)
    case ScheduleLock => s.(workers := s.workers[i := WInSch(pc.node)], schLock := HeldByWorker(i))
    case ScheduleInsert =>
      s.(workers := s.workers[i := WInserted], schedule := s.schedule + [pc.node],
         hist := h.(scheduled := h.scheduled + [pc.node]))
    case ScheduleUnlock => s.(workers := s.workers[i := WPosting], schLock := Free)
    case FullPost => s.(workers := s.workers[i := WIdle], semFull := s.semFull + 1)
  }

  /** The oldest scheduled node is removed, then executed, then freed. */
  function ConsumerApply(s: State, i: nat, e: ConsumerStep): (t: State)
    requires i < |s.consumers| && ConsumerEnabled(s, s.consumers[i], e)
    ensures t.producers == s.producers && t.workers == s.workers && t.allocator == s.allocator
    ensures t.fifo == s.fifo && t.jobs == s.jobs && t.pending == s.pending && t.pendLock == s.pendLock
    ensures SameInput(s.hist, t.hist) && t.hist.popped == s.hist.popped && t.hist.scheduled == s.hist.scheduled
    ensures |t.consumers| == |s.consumers| && t.consumers == s.consumers[i := t.consumers[i]]
    ensures t.schedule == if e.RemovePop? then s.schedule[1..] else s.schedule
    ensures t.hist.executed == if e.Execute? then s.hist.executed + [s.consumers[i].node] else s.hist.executed
    ensures t.hist.freed == if e.Recycle? then s.hist.freed + [s.consumers[i].node] else s.hist.freed
  {
    var pc := s.consumers[i];
    var h := s.hist;
    match e
    case FullWait => s.(consumers := s.consumers[i := CToken], semFull := s.semFull - 1)
    case RemoveLock => s.(consumers := s.consumers[i := CInSch], schLock := HeldByConsumer(i))
    case RemoveTest => s.(consumers := s.consumers[i := if s.schedule == [] then CEmptyExit else CFound])
    case RemovePop =>
      s.(consumers := s.consumers[i := CRemoved(s.schedule[0])], schedule := s.schedule[1..],
         hist := h.(removed := h.removed + [s.schedule[0]]))
    case RemoveUnlock =>
      s.(consumers := s.consumers[i := if pc.CEmptyExit? then CWait else CPosting(pc.node)], schLock := Free)
    case EmptyPost => s.(consumers := s.consumers[i := CHolding(pc.node)], semEmpty := s.semEmpty + 1)
    case Execute =>
      s.(consumers := s.consumers[i := CExecuted(pc.node)], hist := h.(executed := h.executed + [pc.node]))
    case Recycle =>
      s.(consumers := s.consumers[i := CWait],
         hist := h.(freed := h.freed + [pc.node], tasklsFreed := h.tasklsFreed + 1))
  }

  function Apply(s: State, e: Event): State
    requires Enabled(s, e)
  {
    match e
    case Produce(p, ps) => ProducerApply(s, p, ps)
    case Allocate(a) => AllocatorApply(s, a)
    case Work(w, ws) => WorkerApply(s, w, ws)
    case Consume(c, cs) => ConsumerApply(s, c, cs)
  }

  /** The state that `task_init` leaves, with any number of threads of each kind. */
  function Init(producers: nat, workers: nat, consumers: nat): State {
    State(seq(producers, _ => PIdle), AWait, seq(workers, _ => WIdle), seq(consumers, _ => CWait),
          0, 0, [], [], Free, Free, TASK_MAXNUM, 0,
          History([], [], [], [], [], [], [], [], [], 0, 0, 0, 0, 0, 0, 0, 0))
  }

  /** `es` can happen, in this order, from `s`. */
  predicate Possible(s: State, es: seq<Event>)
    decreases |es|, 0
  {
    es == [] || (Possible(s, es[..|es| - 1]) && Enabled(After(s, es[..|es| - 1]), es[|es| - 1]))
  }

  /** The state after the events `es`. */
  function After(s: State, es: seq<Event>): State
    requires Possible(s, es)
    decreases |es|, 1
  {
    if es == [] then s else Apply(After(s, es[..|es| - 1]), es[|es| - 1])
  }
}
