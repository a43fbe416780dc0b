/** The pipeline over concrete rings: both queues are rings changed one pointer write at a time, and every
    history of the object is a run of the transition system whose state the rings represent. */
module TaskManager {
  import opened Pipeline
  import opened PipelineInvariants
  import opened PipelineTheorems
  import opened Ring
  import opened SharedList

  /** Events that change a list; they happen at a pointer write. */
  predicate ListEvent(e: Event) {
    match e
    case Produce(_, ps) => ps.PendingLink?
    case Allocate(_) => false
    case Work(_, ws) => ws.AcquirePop? || ws.ScheduleInsert?
    case Consume(_, cs) => cs.RemovePop?
  }

  /** Events that release pendlock, respectively taskschlock. */
  predicate ReleasesPend(e: Event) {
    (e.Produce? && e.pstep.PendingUnlock?) || (e.Work? && e.wstep.AcquireUnlock?)
  }
  predicate ReleasesSch(e: Event) {
    (e.Work? && e.wstep.ScheduleUnlock?) || (e.Consume? && e.cstep.RemoveUnlock?)
  }

  /** The ring holds exactly the nodes of the queue, in order. */
  ghost predicate Represents(ring: seq<ListHead>, item: map<ListHead, Node>, queue: seq<Node>) {
    |ring| == |queue| && forall i :: 0 <= i < |ring| ==> ring[i] in item && item[ring[i]] == queue[i]
  }

  lemma RepresentsAdd(ring: seq<ListHead>, item: map<ListHead, Node>, queue: seq<Node>, e: ListHead, n: Node)
    requires Represents(ring, item, queue) && e !in ring
    ensures Represents(ring, item[e := n], queue) && Represents(ring + [e], item[e := n], queue + [n])
  {
  }

  lemma RepresentsTail(ring: seq<ListHead>, item: map<ListHead, Node>, queue: seq<Node>)
    requires Represents(ring, item, queue) && ring != []
    ensures Represents(ring[1..], item, queue[1..]) && ring[0] in item && item[ring[0]] == queue[0]
  {
  }

  /** The state after an event, where it is enabled. */
  ghost function Next(v: State, e: Event): State {
    if Enabled(v, e) then Apply(v, e) else v
  }

  /** `task_pending_add` with no other thread in between: lock, link, unlock. */
  ghost function AddPending(v: State, p: nat): (t: State)
    requires Enabled(v, Produce(p, PendingLock))
    ensures t.pending == v.pending + [v.producers[p].node] && t.schedule == v.schedule
    ensures t.producers == v.producers[p := PTrigger] && t.workers == v.workers && t.pendLock == Free
  {
    var locked := Next(v, Produce(p, PendingLock));
    var linked := Next(locked, Produce(p, PendingLink));
    Next(linked, Produce(p, PendingUnlock))
  }

  /** `task_pending_acquire` with no other thread in between: lock, test, unlink, unlock. */
  ghost function AcquirePending(v: State, w: nat): (t: State)
    requires Enabled(v, Work(w, AcquireLock))
    ensures v.pending == [] ==> t.pending == [] && t.workers == v.workers[w := WDrop]
    ensures v.pending != [] ==> t.pending == v.pending[1..] && t.workers == v.workers[w := WHolding(v.pending[0])]
    ensures t.schedule == v.schedule && t.producers == v.producers && t.pendLock == Free
  {
    var locked := Next(v, Work(w, AcquireLock));
    var tested := Next(locked, Work(w, AcquireTest));
    if v.pending == [] then
      Next(tested, Work(w, AcquireUnlock))
    else
      Next(Next(tested, Work(w, AcquirePop)), Work(w, AcquireUnlock))
  }

  /** The critical section of `task_schedule_add` with no other thread in between. */
  ghost function AddScheduled(v: State, w: nat): (t: State)
    requires Enabled(v, Work(w, ScheduleLock))
    ensures t.schedule == v.schedule + [v.workers[w].node] && t.pending == v.pending
    ensures t.workers == v.workers[w := WPosting] && t.consumers == v.consumers && t.schLock == Free
  {
    var locked := Next(v, Work(w, ScheduleLock));
    var linked := Next(locked, Work(w, ScheduleInsert));
    Next(linked, Work(w, ScheduleUnlock))
  }

  /** The critical section of `task_schedule_acquire` with no other thread in between, on a list that is not empty. */
  ghost function AcquireScheduled(v: State, c: nat): (t: State)
    requires Enabled(v, Consume(c, RemoveLock)) && v.schedule != []
    ensures t.schedule == v.schedule[1..] && t.pending == v.pending
    ensures t.consumers == v.consumers[c := CPosting(v.schedule[0])] && t.workers == v.workers && t.schLock == Free
  {
    var locked := Next(v, Consume(c, RemoveLock));
    var tested := Next(locked, Consume(c, RemoveTest));
    Next(Next(tested, Consume(c, RemovePop)), Consume(c, RemoveUnlock))
  }

  class Manager {
    const pend: SharedRing
    const sch: SharedRing
    ghost var item: map<ListHead, Node>     // which node an entry belongs to (container_of)
    ghost var view: State                   // the abstract state that the run has reached

    /** While pendlock is free its ring is at rest, and likewise for taskschlock. */
    ghost predicate Settled()
      reads this, pend, sch
    {
      && (view.pendLock.Free? ==> pend.stage == Quiet)
      && (view.schLock.Free? ==> sch.stage == Quiet)
    }

    /** Two rings without a common node, each as its stage says. */
    ghost predicate Rings()
      reads this, pend, sch, pend.nodes, sch.nodes
    {
      Apart(pend, sch)
    }

    ghost predicate Valid()
      reads this, pend, sch, pend.nodes, sch.nodes
    {
      && Rings()
      && Reachable(view)
      && Represents(pend.contents, item, view.pending)
      && Represents(sch.contents, item, view.schedule)
      && Settled()
    }

    constructor (ghost producers: nat, ghost workers: nat, ghost consumers: nat)
      ensures Valid() && view == Init(producers, workers, consumers)
    {
      pend := new SharedRing();
      sch := new SharedRing();
      item := map[];
      view := Init(producers, workers, consumers);
      ReachableInit(producers, workers, consumers);
    }

    /** A step that leaves both lists alone. A thread releases a lock only when its change is complete. */
    ghost method Local(e: Event)
      requires Valid() && Enabled(view, e) && !ListEvent(e)
      requires ReleasesPend(e) ==> pend.stage == Quiet
      requires ReleasesSch(e) ==> sch.stage == Quiet
      modifies this`view
      ensures Valid() && view == Next(old(view), e)
    {
      ReachableStep(view, e);
      view := Apply(view, e);
    }

    // The four unlocks: each change is complete before its lock is released.

    ghost method UnlockAdded(p: nat)
      requires Valid() && pend.stage == Quiet && p < |view.producers| && view.producers[p].PLinked?
      modifies this`view
      ensures Valid() && view == Next(old(view), Produce(p, PendingUnlock))
    {
      Local(Produce(p, PendingUnlock));
    }

    ghost method UnlockAcquired(w: nat)
      requires Valid() && pend.stage == Quiet && w < |view.workers|
      requires view.workers[w].WPopped? || view.workers[w].WNone?
      modifies this`view
      ensures Valid() && view == Next(old(view), Work(w, AcquireUnlock))
    {
      Local(Work(w, AcquireUnlock));
    }

    ghost method UnlockScheduled(w: nat)
      requires Valid() && sch.stage == Quiet && w < |view.workers| && view.workers[w].WInserted?
      modifies this`view
      ensures Valid() && view == Next(old(view), Work(w, ScheduleUnlock))
    {
      Local(Work(w, ScheduleUnlock));
    }

    ghost method UnlockRemoved(c: nat)
      requires Valid() && sch.stage == Quiet && c < |view.consumers| && view.consumers[c].CRemoved?
      modifies this`view
      ensures Valid() && view == Next(old(view), Consume(c, RemoveUnlock))
    {
      Local(Consume(c, RemoveUnlock));
    }

    /** `task_allocate` tests the pending list without the lock, at any pointer write of any change to it. */
    method AllocatorTestStep() returns (empty: bool)
      requires Valid() && view.allocator.ATest?
      modifies this`view
      ensures Valid()
      ensures view == Next(old(view), Allocate(AllocatorTest))
      ensures empty <==> view.allocator.AWait?
    {
      empty := ListEmpty(pend.head);
      pend.TestIsExact();
      Local(Allocate(AllocatorTest));
    }

    // ----- pointer writes that no reader of the lists can see -----

    /** `r` is one of the two rings, and some thread is inside its critical section. */
    ghost predicate Owned(r: SharedRing)
      reads this
    {
      && (r == pend || r == sch)
      && (r == pend ==> !view.pendLock.Free?)
      && (r == sch ==> !view.schLock.Free?)
    }

    method AddWritePrev(r: SharedRing, e: ListHead) returns (last: ListHead)
      requires Valid() && Owned(r) && r.stage == Quiet && e !in pend.nodes && e !in sch.nodes
      modifies r`stage, r`nodes, r.head`prev
      ensures Valid() && r.stage == Adding(e, 1) && r.contents == old(r.contents)
      ensures last == At(r.head, r.contents, |r.contents| - 1)
    {
      ghost var other := if r == pend then sch else pend;
      last := r.AddWritePrev(e);
      assert other.Valid();
    }

    method AddWriteEntryNext(r: SharedRing, e: ListHead)
      requires Valid() && Owned(r) && r.stage == Adding(e, 1)
      modifies r`stage, e`next
      ensures Valid() && r.stage == Adding(e, 2) && r.contents == old(r.contents)
    {
      r.AddWriteEntryNext(e);
    }

    method AddWriteEntryPrev(r: SharedRing, e: ListHead, last: ListHead)
      requires Valid() && Owned(r) && r.stage == Adding(e, 2) && last == At(r.head, r.contents, |r.contents| - 1)
      modifies r`stage, e`prev
      ensures Valid() && r.stage == Adding(e, 3) && r.contents == old(r.contents)
    {
      r.AddWriteEntryPrev(e, last);
    }

    method UnlinkBack(r: SharedRing, e: ListHead) returns (prev: ListHead, next: ListHead)
      requires Rings() && (r == pend || r == sch) && r.stage == Quiet && r.contents != [] && e == r.contents[0]
      modifies r`stage, At(r.head, r.contents, 1)`prev
      ensures Rings() && r.stage == Deleting(e, 0, 1) && r.contents == old(r.contents)
      ensures prev == r.head && next == At(r.head, r.contents, 1)
    {
      ghost var other := if r == pend then sch else pend;
      assert At(r.head, r.contents, 1) in r.nodes && At(r.head, r.contents, 1) !in other.nodes;
      prev, next := r.DelWritePrev(e, 0);
      assert other.Valid() ;
    }

    method DelWritePrev(r: SharedRing, e: ListHead) returns (prev: ListHead, next: ListHead)
      requires Valid() && Owned(r) && r.stage == Quiet && r.contents != [] && e == r.contents[0]
      modifies r`stage, At(r.head, r.contents, 1)`prev
      ensures Valid() && r.stage == Deleting(e, 0, 1) && r.contents == old(r.contents)
      ensures prev == r.head && next == At(r.head, r.contents, 1)
    {
      prev, next := UnlinkBack(r, e);
    }

    method DelPoisonNext(r: SharedRing, e: ListHead)
      requires Valid() && Owned(r) && r.stage == Deleting(e, 0, 2)
      modifies r`stage, e`next
      ensures Valid() && r.stage == Deleting(e, 0, 3) && r.contents == old(r.contents)
    {
      r.DelPoisonNext(e, 0);
    }

    method DelPoisonPrev(r: SharedRing, e: ListHead)
      requires Valid() && Owned(r) && r.stage == Deleting(e, 0, 3)
      modifies r`stage, r`nodes, e`prev
      ensures Valid() && r.stage == Quiet && r.contents == old(r.contents)
    {
      r.DelPoisonPrev(e, 0);
    }

    // ----- pointer writes at which a list changes -----

    /** The last write of list_add_tail in `task_pending_add`. */
    method LinkPending(p: nat, e: ListHead, last: ListHead)
      requires Valid() && pend.stage == Adding(e, 3) && last == At(pend.head, pend.contents, |pend.contents| - 1)
      requires p < |view.producers| && view.producers[p].PLocked?
      modifies this`view, this`item, pend, last`next
      ensures Valid()
      ensures pend.stage == Quiet && pend.contents == old(pend.contents) + [e] && sch.contents == old(sch.contents)
      ensures view == Next(old(view), Produce(p, PendingLink)) && view.producers == old(view).producers[p := PLinked]
    {
      ghost var n := view.producers[p].node;
      RepresentsAdd(pend.contents, item, view.pending, e, n);
      RepresentsAdd(sch.contents, item, view.schedule, e, n);
      LinkTail(pend, sch, e, last);
      item := item[e := n];
      ReachableStep(view, Produce(p, PendingLink));
      view := Apply(view, Produce(p, PendingLink));
    }

    /** The write of list_del in `task_pending_acquire` that takes the first entry out. */
    method PopPending(w: nat, e: ListHead, prev: ListHead, next: ListHead)
      requires Valid() && pend.stage == Deleting(e, 0, 1)
      requires prev == pend.head && next == At(pend.head, pend.contents, 1)
      requires w < |view.workers| && view.workers[w].WFound?
      modifies this`view, pend, pend.head`next
      ensures Valid()
      ensures pend.stage == Deleting(e, 0, 2)
      ensures pend.contents == old(pend.contents)[1..] && sch.contents == old(sch.contents)
      ensures view == Next(old(view), Work(w, AcquirePop))
      ensures e in item && view.workers == old(view).workers[w := WPopped(item[e])]
      ensures view.pendLock == old(view).pendLock
    {
      RepresentsTail(pend.contents, item, view.pending);
      UnlinkFirst(pend, sch, e, prev, next);
      ReachableStep(view, Work(w, AcquirePop));
      view := Apply(view, Work(w, AcquirePop));
    }

    /** The last write of list_add_tail in `task_schedule_add`. */
    method InsertSchedule(w: nat, e: ListHead, last: ListHead)
      requires Valid() && sch.stage == Adding(e, 3) && last == At(sch.head, sch.contents, |sch.contents| - 1)
      requires w < |view.workers| && view.workers[w].WInSch?
      modifies this`view, this`item, sch, last`next
      ensures Valid()
      ensures sch.stage == Quiet && sch.contents == old(sch.contents) + [e] && pend.contents == old(pend.contents)
      ensures view == Next(old(view), Work(w, ScheduleInsert)) && view.workers == old(view).workers[w := WInserted]
    {
      ghost var n := view.workers[w].node;
      RepresentsAdd(sch.contents, item, view.schedule, e, n);
      RepresentsAdd(pend.contents, item, view.pending, e, n);
      LinkTail(sch, pend, e, last);
      item := item[e := n];
      ReachableStep(view, Work(w, ScheduleInsert));
      view := Apply(view, Work(w, ScheduleInsert));
    }

    /** The write of list_del in `task_schedule_acquire` that takes the first entry out. */
    method RemoveSchedule(c: nat, e: ListHead, prev: ListHead, next: ListHead)
      requires Valid() && sch.stage == Deleting(e, 0, 1)
      requires prev == sch.head && next == At(sch.head, sch.contents, 1)
      requires c < |view.consumers| && view.consumers[c].CFound?
      modifies this`view, sch, sch.head`next
      ensures Valid()
      ensures sch.stage == Deleting(e, 0, 2)
      ensures sch.contents == old(sch.contents)[1..] && pend.contents == old(pend.contents)
      ensures view == Next(old(view), Consume(c, RemovePop))
      ensures e in item && view.consumers == old(view).consumers[c := CRemoved(item[e])]
      ensures view.schLock == old(view).schLock
    {
      RepresentsTail(sch.contents, item, view.schedule);
      UnlinkFirst(sch, pend, e, prev, next);
      ReachableStep(view, Consume(c, RemovePop));
      view := Apply(view, Consume(c, RemovePop));
    }

    // ----- the critical sections of src/sys_task.c, as one thread runs them from lock to unlock -----

    /** The first three writes of list_add_tail. */
    method PrepareAdd(r: SharedRing, e: ListHead) returns (last: ListHead)
      requires Valid() && Owned(r) && r.stage == Quiet && e !in pend.nodes && e !in sch.nodes
      modifies r`stage, r`nodes, r.head`prev, e
      ensures Valid() && r.stage == Adding(e, 3) && r.contents == old(r.contents)
      ensures last == At(r.head, r.contents, |r.contents| - 1)
    {
      last := AddWritePrev(r, e);
      AddWriteEntryNext(r, e);
      AddWriteEntryPrev(r, e, last);
    }

    /** The two poisoning writes of list_del. */
    method Poison(r: SharedRing, e: ListHead)
      requires Valid() && Owned(r) && r.stage == Deleting(e, 0, 2)
      modifies r`stage, r`nodes, e
      ensures Valid() && r.stage == Quiet && r.contents == old(r.contents)
    {
      DelPoisonNext(r, e);
      DelPoisonPrev(r, e);
    }

    /** `task_pending_add` up to its last pointer write. */
    method BeginPendingAdd(p: nat, e: ListHead) returns (last: ListHead)
      requires Valid() && Enabled(view, Produce(p, PendingLock)) && e !in pend.nodes && e !in sch.nodes
      modifies this`view, pend`stage, pend`nodes, pend.head`prev, e
      ensures Valid() && view == Next(old(view), Produce(p, PendingLock))
      ensures p < |view.producers| && view.producers[p].PLocked?
      ensures pend.stage == Adding(e, 3) && last == At(pend.head, pend.contents, |pend.contents| - 1)
    {
      Local(Produce(p, PendingLock));
      last := PrepareAdd(pend, e);
    }

    method EndPendingAdd(p: nat, e: ListHead, last: ListHead)
      requires Valid() && p < |view.producers| && view.producers[p].PLocked?
      requires pend.stage == Adding(e, 3) && last == At(pend.head, pend.contents, |pend.contents| - 1)
      modifies this`view, this`item, pend, last`next
      ensures Valid() && pend.contents == old(pend.contents) + [e] && sch.contents == old(sch.contents)
      ensures view == Next(Next(old(view), Produce(p, PendingLink)), Produce(p, PendingUnlock))
    {
      LinkPending(p, e, last);
      UnlockAdded(p);
    }

    method TaskPendingAdd(p: nat, e: ListHead)
      requires Valid() && Enabled(view, Produce(p, PendingLock)) && e !in pend.nodes && e !in sch.nodes
      modifies this`view, this`item, pend, pend.nodes, e
      ensures Valid() && pend.contents == old(pend.contents) + [e]
      ensures view == AddPending(old(view), p)
    {
      var last := BeginPendingAdd(p, e);
      EndPendingAdd(p, e, last);
    }

    /** `task_pending_acquire` up to the branch on list_empty. */
    method BeginPendingAcquire(w: nat) returns (empty: bool)
      requires Valid() && Enabled(view, Work(w, AcquireLock))
      modifies this`view
      ensures Valid()
      ensures view == Next(Next(old(view), Work(w, AcquireLock)), Work(w, AcquireTest))
      ensures empty <==> view.pending == []
      ensures pend.stage == Quiet
    {
      Local(Work(w, AcquireLock));
      assert view.workers[w] == WInPend;
      empty := ListEmpty(pend.head);
      pend.TestIsExact();
      Local(Work(w, AcquireTest));
    }

    /** list_del of the first pending entry up to the poisoning. */
    method UnlinkPending(w: nat) returns (first: ListHead)
      requires Valid() && pend.stage == Quiet && !view.pendLock.Free?
      requires w < |view.workers| && view.workers[w].WFound? && view.pending != []
      modifies this`view, pend, pend.nodes
      ensures Valid() && [first] + pend.contents == old(pend.contents) && pend.stage == Deleting(first, 0, 2)
      ensures view == Next(old(view), Work(w, AcquirePop))
      ensures w < |view.workers| && view.workers[w].WPopped? && !view.pendLock.Free?
    {
      first := pend.head.next;
      var prev, next := DelWritePrev(pend, first);
      PopPending(w, first, prev, next);
    }

    /** The rest of `task_pending_acquire` when the list is not empty. */
    method EndPendingAcquire(w: nat) returns (first: ListHead)
      requires Valid() && pend.stage == Quiet && !view.pendLock.Free?
      requires w < |view.workers| && view.workers[w].WFound? && view.pending != []
      modifies this`view, pend, pend.nodes
      ensures Valid() && [first] + pend.contents == old(pend.contents)
      ensures view == Next(Next(old(view), Work(w, AcquirePop)), Work(w, AcquireUnlock))
    {
      first := UnlinkPending(w);
      Poison(pend, first);
      UnlockAcquired(w);
    }

    method TaskPendingAcquire(w: nat) returns (e: ListHead?)
      requires Valid() && Enabled(view, Work(w, AcquireLock))
      modifies this`view, pend, pend.nodes
      ensures Valid() && view == AcquirePending(old(view), w)
      ensures e == null <==> old(view).pending == []
      ensures if e == null then pend.contents == old(pend.contents) else [e] + pend.contents == old(pend.contents)
    {
      var empty := BeginPendingAcquire(w);
      if empty {
        UnlockAcquired(w);
        return null;
      }
      e := EndPendingAcquire(w);
    }

    /** The critical section of `task_schedule_add` up to its last pointer write. */
    method BeginScheduleAdd(w: nat, e: ListHead) returns (last: ListHead)
      requires Valid() && Enabled(view, Work(w, ScheduleLock)) && e !in pend.nodes && e !in sch.nodes
      modifies this`view, sch`stage, sch`nodes, sch.head`prev, e
      ensures Valid() && view == Next(old(view), Work(w, ScheduleLock))
      ensures w < |view.workers| && view.workers[w].WInSch?
      ensures sch.stage == Adding(e, 3) && last == At(sch.head, sch.contents, |sch.contents| - 1)
    {
      Local(Work(w, ScheduleLock));
      last := PrepareAdd(sch, e);
    }

    method EndScheduleAdd(w: nat, e: ListHead, last: ListHead)
      requires Valid() && w < |view.workers| && view.workers[w].WInSch?
      requires sch.stage == Adding(e, 3) && last == At(sch.head, sch.contents, |sch.contents| - 1)
      modifies this`view, this`item, sch, last`next
      ensures Valid() && sch.contents == old(sch.contents) + [e]
      ensures view == Next(Next(old(view), Work(w, ScheduleInsert)), Work(w, ScheduleUnlock))
    {
      InsertSchedule(w, e, last);
      UnlockScheduled(w);
    }

    method TaskScheduleAdd(w: nat, e: ListHead)
      requires Valid() && Enabled(view, Work(w, ScheduleLock)) && e !in pend.nodes && e !in sch.nodes
      modifies this`view, this`item, sch, sch.nodes, e
      ensures Valid() && sch.contents == old(sch.contents) + [e]
      ensures view == AddScheduled(old(view), w)
    {
      var last := BeginScheduleAdd(w, e);
      EndScheduleAdd(w, e, last);
    }

    /** The critical section of `task_schedule_acquire` up to the branch on list_empty, which always finds an entry. */
    method BeginScheduleAcquire(c: nat) returns (empty: bool)
      requires Valid() && Enabled(view, Consume(c, RemoveLock))
      modifies this`view
      ensures Valid() && sch.stage == Quiet && !empty && view.schedule == old(view).schedule != []
      ensures view == Next(Next(old(view), Consume(c, RemoveLock)), Consume(c, RemoveTest))
    {
      Local(Consume(c, RemoveLock));
      assert view.consumers[c] == CInSch;
      BoundedBuffer(view);
      empty := ListEmpty(sch.head);
      sch.TestIsExact();
      Local(Consume(c, RemoveTest));
    }

    method UnlinkSchedule(c: nat) returns (first: ListHead)
      requires Valid() && sch.stage == Quiet && !view.schLock.Free?
      requires c < |view.consumers| && view.consumers[c].CFound? && view.schedule != []
      modifies this`view, sch, sch.nodes
      ensures Valid() && [first] + sch.contents == old(sch.contents) && sch.stage == Deleting(first, 0, 2)
      ensures view == Next(old(view), Consume(c, RemovePop))
      ensures c < |view.consumers| && view.consumers[c].CRemoved? && !view.schLock.Free?
    {
      first := sch.head.next;
      var prev, next := DelWritePrev(sch, first);
      RemoveSchedule(c, first, prev, next);
    }

    method EndScheduleAcquire(c: nat) returns (first: ListHead)
      requires Valid() && sch.stage == Quiet && !view.schLock.Free?
      requires c < |view.consumers| && view.consumers[c].CFound? && view.schedule != []
      modifies this`view, sch, sch.nodes
      ensures Valid() && [first] + sch.contents == old(sch.contents)
      ensures view == Next(Next(old(view), Consume(c, RemovePop)), Consume(c, RemoveUnlock))
    {
      first := UnlinkSchedule(c);
      Poison(sch, first);
      UnlockRemoved(c);
    }

    /** It never returns NULL. */
    method TaskScheduleAcquire(c: nat) returns (first: ListHead)
      requires Valid() && Enabled(view, Consume(c, RemoveLock))
      modifies this`view, sch, sch.nodes
      ensures Valid() && [first] + sch.contents == old(sch.contents)
      ensures old(view).schedule != [] && view == AcquireScheduled(old(view), c)
    {
      var empty := BeginScheduleAcquire(c);
      first := EndScheduleAcquire(c);
    }

    /** The queues never share a node, and while its lock is free each is a well-formed ring that holds its nodes
        in order. */
    lemma RingsAtRest()
      requires Valid()
      ensures Disjoint(pend.head, pend.contents, sch.head, sch.contents)
      ensures view.pendLock.Free? ==> IsRing(pend.head, pend.contents)
      ensures view.schLock.Free? ==> IsRing(sch.head, sch.contents)
      ensures Represents(pend.contents, item, view.pending) && Represents(sch.contents, item, view.schedule)
    {
      assert pend.nodes !! sch.nodes;
      assert forall x :: x in pend.contents ==> x in pend.nodes;
    }
  }
}
