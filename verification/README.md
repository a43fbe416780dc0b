# A verified model of the system server's work queues, list and checksum

The smart-home server passes serial commands through a two-stage pipeline, keeps its queues and its device
registry on an intrusive circular list, and protects frames with a table-driven CRC. This project models
these three parts in Dafny and proves what they guarantee. `dafny verify dfyconfig.toml` checks everything.

**The pipeline** (`Pipeline`, `PipelineInvariants`, `PipelineTheorems`, `PipelineEvents`, `ProgramOrder`,
`PipelineDrain`, `PipelineDelivery`, `PipelineLimits`, `SerialEvent`). A serial reader links a `pending` node and
writes one trigger byte to a FIFO. The allocator thread reads up to 127 bytes at once, tests the pending list
without its lock and adds one pool job. A pool thread takes the job, pops one node, and passes it through a buffer
of 2048 places guarded by two semaphores and a mutex to the scheduler thread, which executes and frees it. The
model is a transition system with one program counter per thread and any number of readers, pool threads and
scheduler threads; an event is one atomic step and a run is any interleaving. Every theorem is about every
reachable state: one that lies in every set of states that holds the initial ones and that no step leaves, which
are exactly the states after the runs (`ReachableByRun`).
- Every count that a theorem speaks of is the number of events that did it (`EventCounts`), every chunk is one that
  was read, and each thread can at any time do exactly what its program text has next (`FollowsProgram`).
- A run that cannot go on has executed every chunk as often as it was read, if and only if no chunk was dropped and
  the lost wake-ups are made up for (`DeliveredIff`).
- Reading several bytes at once loses wake-ups. As long as no read of the FIFO fails, the number of nodes left
  in the pending list at rest is *exactly* the number of swallowed bytes plus failed triggers, dispatches and
  allocations, and no thread ever finds the list empty. So everything gets executed if and only if those
  counts are zero, and for every `k` there is a failure-free run that strands `k` tasks.
- A failed read of the FIFO (negative result, any error but EINTR) still lets the allocator go on. Such
  spurious wake-ups are counted, and each can make up for one lost wake-up or be wasted on an empty list; with
  them everything gets executed if and only if lost + wasted = spurious. Exactly the counts with
  wasted <= spurious <= lost + wasted occur at rest (`LossesIff`).
- Tasks are scheduled in arrival order exactly when there is one pool thread, executed in scheduled order exactly
  when there is one scheduler thread, and executed in arrival order exactly when there is one of each. The program
  has one scheduler thread and a pool of several, so it keeps the second order only.
- `tpool_add_work` returns -1 when its malloc fails and `task_allocate` ignores that; it is one of the counts.

**The list** (`Ring`, `RingOps`, `Traversal`, `SharedList`, `TaskManager`, `Registry`). `list_head` is a class
with mutable `prev` and `next`; the sequence of entries is a ghost argument of each operation. Each method
states the new sequence, and its `modifies` clause names the nodes it may write, so rings without those nodes
do not change. `SharedList` runs `list_add_tail` and `list_del` one pointer write at a time;
`TaskManager` joins two such lists to the transition system: every call on a `Manager` is one
event or one invisible pointer write, calls may come in any order the locks allow, and the rings always
represent the two queues of a reachable state. The four list operations of src/sys_task.c are put together from
those steps.

**The checksum** (`Gf2`, `WordBits`, `Crc`, `CrcTheorems`, `CrcOrder`). The table loop on 16-bit words refines
feeding bits one at a time, which is shown to be the one remainder of M(x)·x^16 modulo x^16 + x^12 + x^5 + 1
(ITU-T Recommendation V.41, section 2). The error-detection guarantees follow: every burst of 16 bits and every
odd number of flipped bits is detected, and two flipped bits exactly when their distance is no multiple of 32767,
the order of x modulo the generator; so all errors of up to three bits are detected in messages of up to 4095
bytes and in no longer ones.

Where the code and its documentation disagree, the model follows the code:
- `sys_dev_register` is documented to insert the device into the devices list, but passes the arguments of
  `list_add` in the wrong order (src/sys_dev_manage.c:36, inc/dlist.h:71-78). `RegisterAll`, `AllOnWalk` and
  `RegisterAllDocumented` state what each order leaves in the list.
- `task_parse` does not clear `dev_latest`, which `task_node_recycle` frees (src/sys_task.c:216, 265). The model
  takes it as null.
- `sys_dev_init` leaves the device's list entry uninitialised (src/sys_dev_manage.c:80). One registration is
  stated for any entry whose `next` is a node, a run of registrations for entries that point to themselves at first.

Assumptions: sequential consistency, and `sem_wait`, mutexes and `tpool_add_work` behave as specified; each
added job is run once. A poisoned list pointer is modelled as null.

## Model

| member | source | states |
|---|---|---|
| Pipeline.ProducerApply | src/sys_serial_event.c:326-346 | only linking makes a node pending, and each linked node is owed one trigger until that is written or fails; the schedule list, its semaphores and its lock are left alone |
| Pipeline.AllocatorApply | src/sys_task.c:296-309 | every trigger byte is swallowed or becomes a batch, every batch a job, a failed dispatch or a waste, and a job is dispatched exactly when the list is seen non-empty; no list, lock or semaphore changes |
| Pipeline.WorkerApply | src/sys_task.c:161-181 | every job ends in a failed allocation, a waste or the oldest pending node, and only a node in hand is scheduled; readers, FIFO and removed nodes are left alone |
| Pipeline.ConsumerApply | src/sys_task.c:186-288 | the oldest scheduled node is removed, and a node in hand executed and then freed; readers, workers, FIFO and the pending list are left alone |
| Pipeline.Padded | src/sys_serial_event.c:327-333 | 100 bytes: the chunk, then zeros |
| PipelineInvariants.PendLockStep | src/sys_task.c:151-181 | every step keeps: a thread is inside a pendlock section exactly when the lock names it |
| PipelineInvariants.SchLockStep | src/sys_task.c:186-244 | every step keeps: a thread is inside a taskschlock section exactly when the lock names it |
| PipelineInvariants.FoundStep | src/sys_task.c:166-177 | what a thread saw under the lock (non-empty, empty) still holds when it acts, so list_del never meets an empty list |
| PipelineInvariants.SemaphoresStep | src/sys_task.c:186-244 | every step keeps both semaphore equations |
| PipelineInvariants.TriggersStep | src/sys_task.c:18-46 | every step keeps the exact balance of pending nodes and wake-ups, and wasted <= spurious |
| PipelineInvariants.HandsStep | src/sys_task.c:161-288 | every step keeps the count of copies of every node at each stage |
| PipelineInvariants.WrappersStep | src/sys_task.c:212-270 | every step keeps the count of allocated `taskl` objects: freed, scheduled or with a thread |
| PipelineInvariants.FifosStep | src/sys_task.c:154-177 | every step keeps: each list gives out what was linked into it, in order |
| PipelineInvariants.LagsStep | src/sys_task.c:212-260 | every step keeps the exact distance between taking and scheduling, and between removing and executing |
| PipelineInvariants.PayloadStep | src/sys_serial_event.c:326-335 | every step keeps: each created node starts with the chunk it was created for, followed by zeros up to 100 bytes |
| PipelineInvariants.InvInit | src/sys_task.c:100-146 | the state left by task_init satisfies every invariant |
| PipelineInvariants.InvAlways | src/sys_task.c:100-330 | every state of every run, for any number of threads, satisfies every invariant |
| PipelineTheorems.ReachableByRun | src/sys_task.c:100-330 | the reachable states are exactly the states after the runs from task_init |
| PipelineTheorems.PendingBalance | src/sys_task.c:301-308 | pending nodes + spurious wake-ups = wake-ups under way + swallowed, failed and wasted ones; hence the bound on pending nodes |
| PipelineTheorems.StrandedExactly | src/sys_task.c:305-306 | with no failed FIFO read the empty-list exits are never taken, and at rest exactly the swallowed and failed wake-ups' nodes are left: the list is empty if and only if there were none |
| PipelineTheorems.MutualExclusion | src/sys_task.c:153-206 | no two threads are ever inside sections of the same lock |
| PipelineTheorems.BoundedBuffer | src/sys_task.c:137-138 | both semaphore equations, at most 2048 scheduled, and the exit at lines 193-196 that would lose a slot is unreachable |
| PipelineTheorems.OneOwner | src/sys_task.c:212-288 | each created node is in exactly one place (reader, pending, worker, scheduled, scheduler, freed), and is executed and freed at most once |
| PipelineTheorems.TasklBalance | src/sys_task.c:212-270 | the `taskl` objects allocated are as many as those freed, scheduled or with a thread, and at rest as those freed |
| PipelineTheorems.ArrivalOrder | src/sys_task.c:161-181 | nodes are taken in arrival order; scheduled nodes plus those in workers' hands are, copy by copy, exactly the taken prefix; likewise for execution |
| PipelineTheorems.LagBound | src/sys_task.c:248-260 | scheduling is behind taking by at most one node per worker, execution behind removal by at most one per scheduler thread |
| PipelineTheorems.SingleThreadOrder | src/sys_task.c:317-330 | one worker schedules in arrival order, one scheduler thread executes in scheduled order, one of each executes in arrival order |
| PipelineTheorems.ExecutedPayload | src/sys_task.c:272-288 | an executed command starts with the chunk recorded for its node, followed by zeros up to 100 bytes, and no node is executed twice |
| PipelineEvents.EventCounts | src/sys_task.c:100-330 | in every run the FIFO, the jobs, both semaphores and every count of the history are the numbers of the events that change them: bytes written, read and swallowed, failed triggers, reads, dispatches and allocations, nodes created, linked, taken, scheduled, removed, executed and freed |
| PipelineEvents.WastedWakeups | src/sys_task.c:166-169 | the wasted wake-ups are the tests that found the pending list empty |
| PipelineEvents.LossesHappened | src/sys_task.c:18-46 | pending nodes + failed FIFO reads = wake-ups under way + bytes swallowed + failed triggers, dispatches and allocations + empty tests, all counted as events |
| PipelineEvents.ReceivedRead | src/sys_serial_event.c:328 | the chunks received are those of the reads |
| PipelineEvents.ChunksAlwaysKept | src/sys_serial_event.c:328-342 | every chunk read is, as often as it was read, in a reader's buffer, recorded for a node, or dropped for want of one |
| PipelineEvents.ExecutedWasReceived | src/sys_serial_event.c:326-346 | every executed command starts with a chunk that some reader read, and no chunk is executed more often than it was read |
| ProgramOrder.FollowsProgram | src/sys_task.c:148-330 | what each thread did so far, and the lock, semaphore or queue that its next line waits for, decide exactly which steps it can take: a reader goes back to its loop after a trigger, a failed trigger or a failed malloc and nowhere after it stopped; a worker takes a node if its test finds one and otherwise unlocks and frees the `taskl`; a scheduler thread always finds a node |
| PipelineDrain.Descends | src/sys_task.c:235-244 | a measure strictly decreases at every step that is not new input or a failed FIFO read |
| PipelineDrain.DrainBound | src/sys_task.c:296-330 | without external steps no run is longer than the measure of its first state |
| PipelineDrain.Progress | src/sys_task.c:186-244 | unless everything is at rest, some thread's own next step is enabled, one in which nothing fails and a read takes all the bytes it can |
| PipelineDrain.NoDeadlock | src/sys_task.c:235-260 | with a node in a worker's hand or in the schedule list some thread can make such a step |
| PipelineDrain.StuckIsQuiescent | src/sys_task.c:322-329 | a run that cannot go on has emptied the schedule list and all hands, and what is pending is covered by lost wake-ups |
| PipelineDrain.AlwaysDrains | src/sys_task.c:296-330 | from every reachable state a bounded run of such steps reaches rest |
| PipelineDrain.AtRest | src/sys_task.c:262-288 | at rest each created node was either executed and freed once or is still pending |
| PipelineDrain.AllExecutedIff | src/sys_task.c:301-308 | a run that cannot go on has executed everything if and only if lost and wasted wake-ups together are as many as the spurious ones |
| PipelineDrain.AllExecutedUnlessLost | src/sys_task.c:301-308 | with no failed FIFO read, that is if and only if no byte was swallowed and nothing failed |
| PipelineDelivery.DeliveredIff | src/sys_serial_event.c:326-346 | a run that cannot go on has executed every chunk exactly as often as it was read if and only if no chunk was dropped and lost wake-ups + empty tests = failed FIFO reads, all counted as events |
| PipelineDelivery.RunBound | src/sys_task.c:148-330 | no run is longer than 28 steps for each chunk read, 22 for each failed FIFO read and one for each reader that stops |
| PipelineDelivery.DrainsWithoutFailure | src/sys_task.c:296-330 | from every reachable state a bounded run in which nothing arrives, is dropped or fails reaches rest |
| PipelineDelivery.SmoothRead | src/sys_task.c:41 | the reads in that run empty the FIFO or take 127 bytes |
| PipelineLimits.BoundIsTight | src/sys_task.c:41 | for every k and any number of threads a failure-free run swallows k bytes and comes to rest with k nodes pending |
| PipelineLimits.LossesIff | src/sys_task.c:18-46 | for any number of threads a run can come to rest with given counts of swallowed bytes, failed triggers, dispatches, allocations, failed and wasted reads if and only if wasted <= spurious <= lost + wasted |
| PipelineLimits.ScheduledInArrivalOrder | src/sys_task.c:248-260 | every reachable state has scheduled in arrival order if and only if there is one worker |
| PipelineLimits.ExecutedInScheduledOrder | src/sys_task.c:317-330 | every reachable state has executed in scheduled order if and only if there is one scheduler thread |
| PipelineLimits.ExecutedInArrivalOrder | src/sys_task.c:248-330 | every reachable state has executed in arrival order if and only if there is one worker and one scheduler thread |
| PipelineLimits.WorkersReorder | src/sys_task.c:248-260 | with any two or more workers the second arrival can be scheduled and executed first |
| PipelineLimits.ConsumersReorder | src/sys_task.c:317-330 | with any two or more scheduler threads the second scheduled task can be executed first |
| PipelineLimits.TwoWorkersReorder | src/sys_task.c:248-260 | the instance with two workers and the program's one scheduler thread |
| SerialEvent.FillCommand | src/sys_serial_event.c:327-333 | whatever the buffers held, the command becomes the chunk, then zeros up to 100 bytes, then what malloc left |
| Ring.RingTests | inc/dlist.h:194-249 | list_empty, list_empty_careful, list_is_singular and list_is_last answer exactly for the entries of the ring |
| Ring.RingUnique | inc/dlist.h:23-26 | a head has only one sequence of entries |
| Ring.WithAt | inc/dlist.h:55-63 | an insertion at gap k moves what is behind it one place on and nothing else |
| Ring.WithoutAt | inc/dlist.h:104-108 | a deletion at position k moves what is behind it one place up and nothing else |
| Ring.NextInsert | inc/dlist.h:59-62 | writing the two next pointers of an insertion at any gap yields the next chain with the entry there |
| Ring.PrevInsert | inc/dlist.h:59-62 | the same for the prev chain |
| Ring.NextRemove | inc/dlist.h:106-107 | writing one next pointer of a deletion at any position yields the next chain without the entry |
| Ring.PrevRemove | inc/dlist.h:106-107 | the same for the prev chain |
| Ring.InitListHead | inc/dlist.h:42-46 | the node becomes an empty ring |
| Ring.ListAddBetween | inc/dlist.h:55-63 | inserts between any two neighbours, writing the entry and one field of each neighbour |
| Ring.ListAdd | inc/dlist.h:78-81 | prepends |
| Ring.ListAddTail | inc/dlist.h:92-95 | appends |
| Ring.ListDelBetween | inc/dlist.h:104-108 | removes any position, leaving the entry's own fields |
| Ring.ListDel | inc/dlist.h:122-127 | removes any position and poisons the entry |
| Ring.ListDelInit | inc/dlist.h:160-164 | removes any position and leaves the entry an empty ring |
| RingOps.ListReplace | inc/dlist.h:140-147 | the new node takes the place of any entry, or of the head, also when the ring is empty |
| RingOps.ListReplaceInit | inc/dlist.h:149-154 | the same, and the old node becomes an empty ring |
| RingOps.ListMove | inc/dlist.h:171-175 | moves an entry to the front of its own ring or of a disjoint one |
| RingOps.ListMoveTail | inc/dlist.h:182-187 | moves an entry to the back of its own ring or of a disjoint one |
| RingOps.RotateAround | inc/dlist.h:232-240 | n left rotations of n entries are the identity |
| RingOps.ListRotateLeft | inc/dlist.h:232-240 | the first entry goes behind the others; an empty ring stays empty |
| RingOps.ListRotateMany | inc/dlist.h:232-240 | n calls rotate n times, and |s| calls restore the ring |
| RingOps.NextJoin | inc/dlist.h:298-302 | the next pointer writes of a splice join the chains at any gap |
| RingOps.PrevJoin | inc/dlist.h:298-302 | the same for the prev chain |
| RingOps.ListSpliceBetween | inc/dlist.h:291-303 | inserts all entries of one ring into a gap of a disjoint one |
| RingOps.ListSplice | inc/dlist.h:310-315 | new entries first; the list's head keeps its own fields; nothing happens for an empty list |
| RingOps.ListSpliceTail | inc/dlist.h:322-327 | new entries last |
| RingOps.ListSpliceInit | inc/dlist.h:336-343 | new entries first, and the list becomes empty |
| RingOps.ListSpliceTailInit | inc/dlist.h:353-360 | new entries last, and the list becomes empty |
| RingOps.ListCutAt | inc/dlist.h:251-261 | splits a ring after any entry |
| RingOps.ListCutPosition | inc/dlist.h:277-289 | splits after the entry; the head as entry empties the list; an empty ring, or a single other entry, changes nothing |
| RingOps.CutThenSplice | inc/dlist.h:251-315 | a cut followed by a splice restores the ring |
| RingOps.SpliceThenCut | inc/dlist.h:277-343 | a splice followed by a cut at the old last entry restores both rings |
| Traversal.ListForEach | inc/dlist.h:387-388 | terminates and visits exactly the entries in order |
| Traversal.ListForEachPrev | inc/dlist.h:406-407 | terminates and visits exactly the entries in reverse |
| Traversal.DeleteIf | inc/dlist.h:122-127 | a loop body that deletes and poisons the current entry if it is to be deleted, and otherwise changes nothing |
| Traversal.KeptMember | inc/dlist.h:415-417 | an entry stays linked exactly when it was linked and is not to be deleted |
| Traversal.KeptConcat | inc/dlist.h:415-417 | the entries that stay keep their order |
| Traversal.KeptAll | inc/dlist.h:415-417 | without deletions all entries stay |
| Traversal.ListForEachSafe | inc/dlist.h:415-417 | visits every original entry once in order, leaves exactly the ones not deleted, in order, and poisons the deleted ones, for any set of deletions |
| SharedList.SharedRing.TestIsExact | inc/dlist.h:204-207 | at every pointer write of a concurrent list_add_tail, or list_del of any entry, the unlocked test answers for the current contents |
| SharedList.SharedRing.CarefulTest | inc/dlist.h:219-223 | at every pointer write list_empty_careful is true exactly when the list is empty and no entry is being added |
| SharedList.SharedRing.OtherTests | inc/dlist.h:194-249 | at every pointer write list_is_last is exact; list_is_singular is exact unless an entry is being added, when it is false, or the first write of a deletion is done |
| SharedList.SharedRing.AddWritePrev | inc/dlist.h:59 | first write of list_add_tail; contents unchanged |
| SharedList.SharedRing.AddWriteEntryNext | inc/dlist.h:60 | second write; contents unchanged |
| SharedList.SharedRing.AddWriteEntryPrev | inc/dlist.h:61 | third write; contents unchanged |
| SharedList.SharedRing.AddWriteNext | inc/dlist.h:62 | last write; the entry is appended |
| SharedList.SharedRing.DelWritePrev | inc/dlist.h:106 | first write of list_del; contents unchanged |
| SharedList.SharedRing.DelWriteNext | inc/dlist.h:107 | second write; the entry is gone, wherever it was |
| SharedList.SharedRing.DelPoisonNext | inc/dlist.h:125 | third write; contents unchanged |
| SharedList.SharedRing.DelPoisonPrev | inc/dlist.h:126 | last write; the entry is fully poisoned |
| TaskManager.Manager.constructor | src/sys_task.c:126-138 | two empty disjoint rings represent the initial state |
| TaskManager.Manager.Local | src/sys_task.c:153-207 | any enabled step that changes no list keeps the rings and makes that step of the transition system |
| TaskManager.Manager.AllocatorTestStep | src/sys_task.c:305-307 | the unlocked test, at any pointer write, takes exactly the branch of the transition system |
| TaskManager.Manager.LinkPending | src/sys_task.c:151-156 | the last write of the insertion appends the reader's node, as the transition system does |
| TaskManager.Manager.PopPending | src/sys_task.c:171-177 | the unlinking write hands the worker the node of the first entry |
| TaskManager.Manager.InsertSchedule | src/sys_task.c:237-243 | the last write of the insertion appends the worker's node to the schedule list |
| TaskManager.Manager.RemoveSchedule | src/sys_task.c:198-204 | the unlinking write hands the scheduler thread the node of the first entry |
| TaskManager.AddPending | src/sys_task.c:151-156 | run alone, the steps of task_pending_add append the reader's node and release the lock; the workers and the other list stay |
| TaskManager.AcquirePending | src/sys_task.c:161-181 | run alone, the steps hand the worker the oldest node, or send it home when there is none, and release the lock |
| TaskManager.AddScheduled | src/sys_task.c:238-242 | run alone, the steps append the worker's node to the schedule list and release the lock |
| TaskManager.AcquireScheduled | src/sys_task.c:191-206 | run alone on a non-empty list, the steps hand the scheduler thread the oldest node and release the lock |
| TaskManager.Manager.TaskPendingAdd | src/sys_task.c:151-156 | from lock to unlock the ring gains the entry at its end, and the state moves by AddPending |
| TaskManager.Manager.TaskPendingAcquire | src/sys_task.c:161-181 | null exactly when the queue was empty; otherwise the first entry is returned and gone from the ring; the state moves by AcquirePending |
| TaskManager.Manager.TaskScheduleAdd | src/sys_task.c:238-242 | the critical section appends the entry, and the state moves by AddScheduled |
| TaskManager.Manager.TaskScheduleAcquire | src/sys_task.c:191-206 | the critical section never finds the list empty, returns the first entry and takes it out; the state moves by AcquireScheduled |
| TaskManager.Manager.RingsAtRest | src/sys_task.c:151-244 | the queues never share a node, and while its lock is free each is a well-formed ring that holds its nodes in order |
| Registry.DeviceManager.SystemDevInit | src/sys_dev_manage.c:106-133 | the first device is its own successor, is first, last and head, has its names, type and operation set, and its list is empty |
| Registry.SysDevRegister | src/sys_dev_manage.c:29-40 | -1 for a null argument; the walk from the head finds the device's own ring ending in the device, or that ring up to the head if the head was on it; a device left from an earlier registration, or the head's own, empties the walk |
| Registry.RegisterAll | src/sys_dev_manage.c:29-40 | after any sequence of registrations, with repeats, the head's list is empty if the latest device was registered before or is the head's own, and otherwise holds exactly the latest device |
| Registry.AllOnWalk | src/sys_dev_manage.c:22-36 | all registered devices are on that walk if and only if at most one was registered (and not the head's own) |
| Registry.RegisterAllDocumented | inc/dlist.h:71-81 | with the documented argument order all devices stay, the latest first |
| Gf2.FeedBitsLinear | src/crc16_1021.c:46-48 | feeding is linear in remainder and message together |
| Gf2.ShiftTimesInjective | src/crc16_1021.c:46-48 | feeding zeros loses nothing |
| Gf2.Absorb | src/crc16_1021.c:47 | up to 16 message bits may be added to the remainder first and shifted through afterwards |
| Crc.EntryBits | src/crc16_1021.c:5-38 | each of the 256 table entries is the remainder of its index after eight steps |
| Crc.ByteStep | src/crc16_1021.c:47 | one step of the table loop feeds the eight bits of the byte |
| Crc.Crc16 | src/crc16_1021.c:40-50 | the loop returns the bit-by-bit remainder of the first len bytes, zero for a negative len |
| CrcTheorems.MessageBitsAt | src/crc16_1021.c:46-48 | byte i of the message gives bits 8i to 8i + 7 |
| CrcTheorems.ByteOrder | src/crc16_1021.c:47 | the most significant bit of a byte comes first |
| CrcTheorems.OnlyRemainder | src/crc16_1021.c:46-48 | bits fed one at a time leave a remainder of the division of M(x)·x^16 by the generator, and there is no other |
| CrcTheorems.ChecksumIsRemainder | src/crc16_1021.c:4-50 | the checksum of the table loop is that remainder of the message's bits |
| CrcTheorems.Undetected | src/crc16_1021.c:40-50 | two messages collide exactly when their difference has remainder zero |
| CrcTheorems.BurstDetected | src/crc16_1021.c:40-50 | messages that differ only within 16 consecutive bits have different checksums |
| CrcTheorems.ChecksumParity | src/crc16_1021.c:40-50 | the checksum has the parity of the message |
| CrcTheorems.OddErrorDetected | src/crc16_1021.c:40-50 | every error of an odd number of bits is detected |
| CrcTheorems.ChecksumConcat | src/crc16_1021.c:46-48 | crc(a ++ b) = crc(a ++ zeros) xor crc(b) |
| CrcTheorems.ResidueZero | src/crc16_1021.c:40-50 | a message followed by two bytes has residue zero if and only if they are its checksum, high byte first |
| CrcTheorems.AppendedChecksum | src/crc16_1021.c:40-50 | the returned word's high and low byte are those two bytes |
| CrcOrder.Order | src/crc16_1021.c:46-48 | the zero-feed returns to its start exactly after the multiples of 32767 steps |
| CrcOrder.TwoBitError | src/crc16_1021.c:40-50 | messages that differ in exactly two bits have the same checksum if and only if the bits are a multiple of 32767 apart |
| CrcOrder.FewBitsDetected | src/crc16_1021.c:40-50 | in messages of at most 4095 bytes every error of one, two or three bits is detected |
| CrcOrder.ThreeBitsIff | src/crc16_1021.c:40-50 | all errors of up to three bits in n bytes are detected if and only if n <= 4095 |

## Left out

- Thread-pool internals (src/threadpool.c): the pool is a count of the jobs that `task_allocate` adds, whose order cannot be seen because they are all the same call. The event loops that never end are jobs of the same pool (src/sys_event_dispatch.c:13-23, src/sys_serial_event.c:325); the workers of the model are the pool threads they leave free, and where a result asks for at least one worker it asks that they leave one.
- The FIFO's capacity is fixed at 65536 bytes; nothing depends on the number, and a write to a full FIFO waits.
- PipelineTheorems.OneOwner: follows nodes one by one, but the `taskl` objects around them only by number (`TasklBalance`).
- Ring.ListDel: the two poison addresses are not told apart.
- The null tests after `list_first_entry` (src/sys_task.c:172-175, 199-202): `container_of` of a linked entry is never null.
- The entries that belong to a node (`container_of`) are a ghost map in `TaskManager`, not address arithmetic.
- TaskManager.Manager.TaskScheduleAdd: the `sem_wait` before and the `sem_post` after the critical section are steps of their own (`Local`), because another thread may have to run between.
- TaskManager.Manager.TaskScheduleAcquire: the same for its `sem_wait` and `sem_post`.
- The `running` flag and shutdown: threads loop for ever; only the serial reader can stop.
- Serial and network set-up, device read and write wrappers, Bluetooth, HTTP, user interface files and logging.
- `list_for_each_prev_safe` and the typed traversal macros: the same loops over the other pointer or through `container_of`.
- `sys_dev_unregister`: its list operation is commented out.
- `crc16_8005` and `CRC16_modbus_rtu` are declared only; their code is not part of this model.
- Weak memory effects.
