/** A ring that one thread at a time changes under a lock, one pointer write at a time, while other threads
    may read `head->next` without the lock. */
module SharedList {
  import opened Ring

  /** How far the current change has come, in pointer writes. */
  datatype Stage =
    | Quiet
    | Adding(entry: ListHead, writes: nat)
    | Deleting(entry: ListHead, at: nat, writes: nat)

  class SharedRing {
    const head: ListHead
    ghost var contents: seq<ListHead>
    ghost var stage: Stage
    ghost var nodes: set<ListHead>      // the head, the entries, and the entry being added or deleted

    /** The `next` chain always spells `contents`; what else is in place depends on the stage. */
    ghost predicate Valid()
      reads this, nodes
    {
      && head in nodes && (forall x :: x in contents ==> x in nodes) && (!stage.Quiet? ==> stage.entry in nodes)
      && Distinct(head, contents) && NextChain(head, contents)
      && match stage
         case Quiet => PrevChain(head, contents)
         case Adding(e, w) =>
           && e != head && e !in contents && 1 <= w <= 3
           && PrevChainBut(head, contents, |contents|) && head.prev == e
           && (w >= 2 ==> e.next == head)
           && (w >= 3 ==> e.prev == At(head, contents, |contents| - 1))
         case Deleting(e, k, w) =>
           && e != head && 1 <= w <= 3
           && if w == 1 then
                && k < |contents| && contents[k] == e
                && PrevChainBut(head, contents, k + 1) && At(head, contents, k + 1).prev == At(head, contents, k - 1)
              else
                && e !in contents && PrevChain(head, contents)
                && (w >= 3 ==> e.next == null)
    }

    constructor ()
      ensures Valid() && stage == Quiet && contents == [] && fresh(nodes)
    {
      head := new ListHead();
      contents := [];
      stage := Quiet;
      nodes := {head};
    }

    /** At every pointer write of every change, the unlocked emptiness test gives the answer for the contents. */
    lemma TestIsExact()
      requires Valid()
      ensures ListEmpty(head) <==> contents == []
    {
      EmptyTest(head, contents);
    }

    /** `list_empty_careful` is false while an entry is being added. */
    lemma CarefulTest()
      requires Valid()
      ensures ListEmptyCareful(head) <==> contents == [] && !stage.Adding?
    {
      EmptyTest(head, contents);
    }

    /** At every pointer write `list_is_last` is exact, and `list_is_singular` answers for the entries that the
        first write of a deletion leaves, but for no entry that is being added. */
    lemma OtherTests()
      requires Valid()
      ensures forall i :: 0 <= i < |contents| ==> (ListIsLast(contents[i], head) <==> i == |contents| - 1)
      ensures ListIsSingular(head) <==>
        match stage
        case Quiet => |contents| == 1
        case Adding(_, _) => false
        case Deleting(_, k, w) => if w == 1 then |contents| == 2 && k == 1 else |contents| == 1
    {
      EmptyTest(head, contents);
      forall i | 0 <= i < |contents| ensures ListIsLast(contents[i], head) <==> i == |contents| - 1 {
        assert contents[i].next == At(head, contents, i + 1);
      }
      assert forall i :: 0 <= i < |contents| ==> contents[i] in contents;
    }

    // ----- list_add_tail, one write at a time: the last one makes the entry part of the list -----

    method AddWritePrev(e: ListHead) returns (last: ListHead)
      requires Valid() && stage == Quiet && e !in nodes
      modifies this`stage, this`nodes, head`prev
      ensures Valid() && stage == Adding(e, 1) && contents == old(contents) && nodes == old(nodes) + {e}
      ensures last == At(head, contents, |contents| - 1)
    {
      last := head.prev;
      head.prev := e;
      stage := Adding(e, 1);
      nodes := nodes + {e};
    }

    method AddWriteEntryNext(e: ListHead)
      requires Valid() && stage == Adding(e, 1)
      modifies this`stage, e`next
      ensures Valid() && stage == Adding(e, 2) && contents == old(contents)
    {
      e.next := head;
      stage := Adding(e, 2);
    }

    method AddWriteEntryPrev(e: ListHead, last: ListHead)
      requires Valid() && stage == Adding(e, 2) && last == At(head, contents, |contents| - 1)
      modifies this`stage, e`prev
      ensures Valid() && stage == Adding(e, 3) && contents == old(contents)
    {
      e.prev := last;
      stage := Adding(e, 3);
    }

    method AddWriteNext(e: ListHead, last: ListHead)
      requires Valid() && stage == Adding(e, 3) && last == At(head, contents, |contents| - 1)
      modifies this`contents, this`stage, last`next
      ensures Valid() && stage == Quiet && contents == old(contents) + [e]
    {
      last.next := e;
      NextInsert(head, contents, |contents|, e);
      PrevInsert(head, contents, |contents|, e);
      assert With(contents, |contents|, e) == contents + [e];
      contents := contents + [e];
      stage := Quiet;
    }

    // ----- list_del of any entry, one write at a time: the second one takes the entry out -----

    method DelWritePrev(e: ListHead, ghost k: nat) returns (prev: ListHead, next: ListHead)
      requires Valid() && stage == Quiet && k < |contents| && e == contents[k]
      modifies this`stage, At(head, contents, k + 1)`prev
      ensures Valid() && stage == Deleting(e, k, 1) && contents == old(contents)
      ensures prev == At(head, contents, k - 1) && next == At(head, contents, k + 1)
    {
      prev, next := e.prev, e.next;
      next.prev := prev;
      stage := Deleting(e, k, 1);
    }

    /** Once the link into position `k` skips it, the ring is whole without it. */
    lemma Skipped(k: nat)
      requires Distinct(head, contents) && k < |contents|
      requires NextChainBut(head, contents, k - 1) && At(head, contents, k - 1).next == At(head, contents, k + 1)
      requires PrevChainBut(head, contents, k + 1) && At(head, contents, k + 1).prev == At(head, contents, k - 1)
      ensures Distinct(head, Without(contents, k)) && contents[k] !in Without(contents, k)
      ensures NextChain(head, Without(contents, k)) && PrevChain(head, Without(contents, k))
      ensures forall x :: x in Without(contents, k) ==> x in contents
    {
      WithoutDistinct(head, contents, k);
      NextRemove(head, contents, k);
      PrevRemove(head, contents, k);
    }

    method DelWriteNext(e: ListHead, prev: ListHead, next: ListHead, ghost k: nat)
      requires Valid() && stage == Deleting(e, k, 1)
      requires prev == At(head, contents, k - 1) && next == At(head, contents, k + 1)
      modifies this`contents, this`stage, prev`next
      ensures Valid() && stage == Deleting(e, k, 2)
      ensures contents == Without(old(contents), k) && (k == 0 ==> contents == old(contents)[1..])
    {
      prev.next := next;
      Skipped(k);
      contents := Without(contents, k);
      stage := Deleting(e, k, 2);
    }

    method DelPoisonNext(e: ListHead, ghost k: nat)
      requires Valid() && stage == Deleting(e, k, 2)
      modifies this`stage, e`next
      ensures Valid() && stage == Deleting(e, k, 3) && contents == old(contents)
    {
      e.next := null;
      stage := Deleting(e, k, 3);
    }

    method DelPoisonPrev(e: ListHead, ghost k: nat)
      requires Valid() && stage == Deleting(e, k, 3)
      modifies this`stage, this`nodes, e`prev
      ensures Valid() && stage == Quiet && contents == old(contents) && nodes == old(nodes) - {e}
      ensures e.next == null && e.prev == null
    {
      e.prev := null;
      stage := Quiet;
      nodes := nodes - {e};
    }
  }

  // ----- a change of one ring beside another -----

  /** Two rings without a common node, each as its stage says. */
  ghost predicate Apart(r: SharedRing, other: SharedRing)
    reads r, other, r.nodes, other.nodes
  {
    r != other && r.Valid() && other.Valid() && r.nodes !! other.nodes
  }

  /** The last write of list_add_tail. */
  method LinkTail(r: SharedRing, ghost other: SharedRing, e: ListHead, last: ListHead)
    requires Apart(r, other) && r.stage == Adding(e, 3) && last == At(r.head, r.contents, |r.contents| - 1)
    modifies r`contents, r`stage, last`next
    ensures Apart(r, other) && r.stage == Quiet && r.contents == old(r.contents) + [e]
  {
    r.AddWriteNext(e, last);
  }

  /** The write of list_del that takes the first entry out. */
  method UnlinkFirst(r: SharedRing, ghost other: SharedRing, e: ListHead, prev: ListHead, next: ListHead)
    requires Apart(r, other) && r.stage == Deleting(e, 0, 1)
    requires prev == r.head && next == At(r.head, r.contents, 1)
    modifies r`contents, r`stage, r.head`next
    ensures Apart(r, other) && r.stage == Deleting(e, 0, 2) && r.contents == old(r.contents)[1..]
  {
    r.DelWriteNext(e, prev, next, 0);
  }
}
