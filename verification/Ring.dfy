/** The intrusive circular doubly linked list of inc/dlist.h. A ring is a head and the entries reached from it;
    its entries are given to each operation as a ghost sequence. A poisoned link is modelled as null. */
module Ring {

  class ListHead {
    var prev: ListHead?
    var next: ListHead?

    constructor ()
      ensures IsRing(this, [])
    {
      prev := this;
      next := this;
    }
  }

  // ----- rings as sequences -----

  ghost predicate Distinct(head: ListHead, s: seq<ListHead>) {
    head !in s && forall i, j :: 0 <= i < j < |s| ==> s[i] != s[j]
  }

  /** The entry at position `i` of the cycle, where both ends are the head. */
  ghost function At(head: ListHead, s: seq<ListHead>, i: int): ListHead {
    if 0 <= i < |s| then s[i] else head
  }

  /** Following `next` from the head visits `s` and comes back. */
  ghost predicate NextChain(head: ListHead, s: seq<ListHead>)
    reads head, s
  {
    && head.next == At(head, s, 0)
    && forall i {:trigger s[i].next} :: 0 <= i < |s| ==> s[i].next == At(head, s, i + 1)
  }

  /** Following `prev` from the head visits `s` backwards and comes back. */
  ghost predicate PrevChain(head: ListHead, s: seq<ListHead>)
    reads head, s
  {
    && head.prev == At(head, s, |s| - 1)
    && forall i {:trigger s[i].prev} :: 0 <= i < |s| ==> s[i].prev == At(head, s, i - 1)
  }

  ghost predicate IsRing(head: ListHead, s: seq<ListHead>)
    reads head, s
  {
    Distinct(head, s) && NextChain(head, s) && PrevChain(head, s)
  }

  /** Two rings without a common node. */
  ghost predicate Disjoint(h1: ListHead, s1: seq<ListHead>, h2: ListHead, s2: seq<ListHead>) {
    h1 != h2 && h1 !in s2 && h2 !in s1 && forall x :: x in s1 ==> x !in s2
  }

  ghost function Members(s: seq<ListHead>): set<ListHead> {
    set x | x in s
  }

  ghost function Without(s: seq<ListHead>, k: nat): seq<ListHead>
    requires k < |s|
  {
    s[..k] + s[k + 1..]
  }

  ghost function With(s: seq<ListHead>, k: nat, x: ListHead): seq<ListHead>
    requires k <= |s|
  {
    s[..k] + [x] + s[k..]
  }

  lemma WithoutAt(s: seq<ListHead>, k: nat, i: nat)
    requires k < |s| && i < |s| - 1
    ensures |Without(s, k)| == |s| - 1 && Without(s, k)[i] == if i < k then s[i] else s[i + 1]
  {
  }

  lemma WithAt(s: seq<ListHead>, k: nat, x: ListHead, i: nat)
    requires k <= |s| && i <= |s|
    ensures |With(s, k, x)| == |s| + 1
    ensures With(s, k, x)[i] == if i < k then s[i] else if i == k then x else s[i - 1]
  {
  }

  lemma WithDistinct(head: ListHead, s: seq<ListHead>, k: nat, x: ListHead)
    requires Distinct(head, s) && k <= |s| && x != head && x !in s
    ensures Distinct(head, With(s, k, x))
  {
    var t := With(s, k, x);
    forall i | 0 <= i < |t| ensures t[i] == if i < k then s[i] else if i == k then x else s[i - 1] {
    }
  }

  lemma WithoutDistinct(head: ListHead, s: seq<ListHead>, k: nat)
    requires Distinct(head, s) && k < |s|
    ensures Distinct(head, Without(s, k)) && s[k] !in Without(s, k)
    ensures forall x :: x in Without(s, k) ==> x in s
  {
  }

  // ----- the read-only tests -----

  predicate ListEmpty(head: ListHead)
    reads head
  {
    head.next == head
  }

  predicate ListEmptyCareful(head: ListHead)
    reads head
  {
    var next := head.next;
    next == head && next == head.prev
  }

  predicate ListIsSingular(head: ListHead)
    reads head
  {
    !ListEmpty(head) && head.next == head.prev
  }

  predicate ListIsLast(entry: ListHead, head: ListHead)
    reads entry
  {
    entry.next == head
  }

  /** The emptiness test needs the `next` chain only. */
  lemma EmptyTest(head: ListHead, s: seq<ListHead>)
    requires Distinct(head, s) && NextChain(head, s)
    ensures ListEmpty(head) <==> s == []
  {
    if s != [] {
      assert s[0] in s;
    }
  }

  lemma RingTests(head: ListHead, s: seq<ListHead>)
    requires IsRing(head, s)
    ensures ListEmpty(head) <==> s == []
    ensures ListEmptyCareful(head) <==> s == []
    ensures ListIsSingular(head) <==> |s| == 1
    ensures forall k :: 0 <= k < |s| ==> (ListIsLast(s[k], head) <==> k == |s| - 1)
  {
    EmptyTest(head, s);
    if |s| > 1 {
      assert s[0] != s[|s| - 1];
    }
    forall k | 0 <= k < |s| ensures ListIsLast(s[k], head) <==> k == |s| - 1 {
      assert s[k].next == At(head, s, k + 1);
    }
  }

  lemma {:induction false} SamePrefix(head: ListHead, s: seq<ListHead>, t: seq<ListHead>, i: nat)
    requires Distinct(head, s) && NextChain(head, s) && Distinct(head, t) && NextChain(head, t)
    requires i <= |s| && i <= |t|
    ensures s[..i] == t[..i]
  {
    if i > 1 {
      SamePrefix(head, s, t, i - 1);
      assert s[i - 2] == s[..i - 1][i - 2] == t[i - 2];
      assert s[i - 2].next == s[i - 1] && t[i - 2].next == t[i - 1];
    }
  }

  /** A head has at most one sequence of entries. */
  lemma RingUnique(head: ListHead, s: seq<ListHead>, t: seq<ListHead>)
    requires IsRing(head, s) && IsRing(head, t)
    ensures s == t
  {
    var n := if |s| < |t| then |s| else |t|;
    SamePrefix(head, s, t, n);
    if n > 0 {
      assert s[n - 1] == s[..n][n - 1] == t[n - 1];
      assert s[n - 1].next == At(head, s, n) && t[n - 1].next == At(head, t, n);
    }
    assert n < |s| ==> At(head, s, n) in s;
    assert n < |t| ==> At(head, t, n) in t;
    assert At(head, s, n) == At(head, t, n);
  }

  // ----- one link changed -----

  /** The `next` chain of `s`, except for the link out of position `j`. */
  ghost predicate NextChainBut(head: ListHead, s: seq<ListHead>, j: int)
    reads head, s
  {
    && (j != -1 ==> head.next == At(head, s, 0))
    && forall i {:trigger s[i].next} :: 0 <= i < |s| && i != j ==> s[i].next == At(head, s, i + 1)
  }

  /** The `prev` chain of `s`, except for the link out of position `j`. */
  ghost predicate PrevChainBut(head: ListHead, s: seq<ListHead>, j: int)
    reads head, s
  {
    && (j != |s| ==> head.prev == At(head, s, |s| - 1))
    && forall i {:trigger s[i].prev} :: 0 <= i < |s| && i != j ==> s[i].prev == At(head, s, i - 1)
  }

  lemma NextInsert(head: ListHead, s: seq<ListHead>, k: nat, entry: ListHead)
    requires k <= |s| && NextChainBut(head, s, k - 1)
    requires At(head, s, k - 1).next == entry && entry.next == At(head, s, k)
    ensures NextChain(head, With(s, k, entry))
  {
    var t := With(s, k, entry);
    forall i | 0 <= i < |t| ensures t[i].next == At(head, t, i + 1) {
      if i > k {
        assert t[i] == s[i - 1];
      }
    }
  }

  lemma PrevInsert(head: ListHead, s: seq<ListHead>, k: nat, entry: ListHead)
    requires k <= |s| && PrevChainBut(head, s, k)
    requires At(head, s, k).prev == entry && entry.prev == At(head, s, k - 1)
    ensures PrevChain(head, With(s, k, entry))
  {
    var t := With(s, k, entry);
    forall i | 0 <= i < |t| ensures t[i].prev == At(head, t, i - 1) {
      if i > k {
        assert t[i] == s[i - 1];
      }
    }
  }

  lemma NextRemove(head: ListHead, s: seq<ListHead>, k: nat)
    requires k < |s| && NextChainBut(head, s, k - 1) && At(head, s, k - 1).next == At(head, s, k + 1)
    ensures NextChain(head, Without(s, k))
  {
    var t := Without(s, k);
    forall i | 0 <= i < |t| ensures t[i].next == At(head, t, i + 1) {
      if i >= k {
        assert t[i] == s[i + 1];
      }
    }
  }

  lemma PrevRemove(head: ListHead, s: seq<ListHead>, k: nat)
    requires k < |s| && PrevChainBut(head, s, k + 1) && At(head, s, k + 1).prev == At(head, s, k - 1)
    ensures PrevChain(head, Without(s, k))
  {
    var t := Without(s, k);
    forall i | 0 <= i < |t| ensures t[i].prev == At(head, t, i - 1) {
      if i >= k {
        assert t[i] == s[i + 1];
      }
    }
  }

  // ----- insertion and deletion -----

  method InitListHead(list: ListHead)
    modifies list
    ensures IsRing(list, [])
  {
    list.next := list;
    list.prev := list;
  }

  /** `__list_add` between the neighbours of gap `k`. */
  method ListAddBetween(entry: ListHead, prev: ListHead, next: ListHead,
                        ghost head: ListHead, ghost s: seq<ListHead>, ghost k: nat)
    requires IsRing(head, s) && k <= |s| && entry != head && entry !in s
    requires prev == At(head, s, k - 1) && next == At(head, s, k)
    modifies entry, next`prev, prev`next
    ensures IsRing(head, With(s, k, entry))
  {
    next.prev := entry;
    entry.next := next;
    entry.prev := prev;
    prev.next := entry;
    WithDistinct(head, s, k, entry);
    NextInsert(head, s, k, entry);
    PrevInsert(head, s, k, entry);
  }

  method ListAdd(entry: ListHead, head: ListHead, ghost s: seq<ListHead>)
    requires IsRing(head, s) && entry != head && entry !in s
    modifies entry, head`next, At(head, s, 0)`prev
    ensures IsRing(head, [entry] + s)
  {
    ListAddBetween(entry, head, head.next, head, s, 0);
    assert With(s, 0, entry) == [entry] + s;
  }

  method ListAddTail(entry: ListHead, head: ListHead, ghost s: seq<ListHead>)
    requires IsRing(head, s) && entry != head && entry !in s
    modifies entry, head`prev, At(head, s, |s| - 1)`next
    ensures IsRing(head, s + [entry])
  {
    ListAddBetween(entry, head.prev, head, head, s, |s|);
    assert With(s, |s|, entry) == s + [entry];
  }

  /** `__list_del` around position `k`; the entry itself is not touched. */
  method ListDelBetween(prev: ListHead, next: ListHead, ghost head: ListHead, ghost s: seq<ListHead>, ghost k: nat)
    requires IsRing(head, s) && k < |s|
    requires prev == At(head, s, k - 1) && next == At(head, s, k + 1)
    modifies next`prev, prev`next
    ensures IsRing(head, Without(s, k))
  {
    next.prev := prev;
    prev.next := next;
    WithoutDistinct(head, s, k);
    NextRemove(head, s, k);
    PrevRemove(head, s, k);
  }

  method ListDel(entry: ListHead, ghost head: ListHead, ghost s: seq<ListHead>, ghost k: nat)
    requires IsRing(head, s) && k < |s| && entry == s[k]
    modifies entry, At(head, s, k - 1)`next, At(head, s, k + 1)`prev
    ensures IsRing(head, Without(s, k))
    ensures entry.next == null && entry.prev == null
  {
    ListDelBetween(entry.prev, entry.next, head, s, k);
    entry.next := null;
    entry.prev := null;
  }

  method ListDelInit(entry: ListHead, ghost head: ListHead, ghost s: seq<ListHead>, ghost k: nat)
    requires IsRing(head, s) && k < |s| && entry == s[k]
    modifies entry, At(head, s, k - 1)`next, At(head, s, k + 1)`prev
    ensures IsRing(head, Without(s, k)) && IsRing(entry, [])
  {
    ListDelBetween(entry.prev, entry.next, head, s, k);
    InitListHead(entry);
  }
}
