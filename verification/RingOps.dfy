/** The whole-entry and whole-list operations of inc/dlist.h: replace, move, rotate, cut and splice. */
module RingOps {
  import opened Ring

  // ----- replace -----

  /** `target` is the entry at position `k`, or the head itself when `k` is -1. */
  method ListReplace(target: ListHead, entry: ListHead, ghost head: ListHead, ghost s: seq<ListHead>, ghost k: int)
    requires IsRing(head, s) && -1 <= k < |s| && target == At(head, s, k) && entry != head && entry !in s
    modifies entry, At(head, s, k - 1)`next, At(head, s, |s| - 1)`next, At(head, s, k + 1)`prev
    ensures if k == -1 then IsRing(entry, s) else IsRing(head, s[k := entry])
  {
    entry.next := target.next;
    entry.next.prev := entry;
    entry.prev := target.prev;
    entry.prev.next := entry;
    if k != -1 {
      ghost var t := s[k := entry];
      assert forall i :: 0 <= i < |s| && i != k ==> t[i] == s[i];
    }
  }

  method ListReplaceInit(target: ListHead, entry: ListHead, ghost head: ListHead, ghost s: seq<ListHead>, ghost k: int)
    requires IsRing(head, s) && -1 <= k < |s| && target == At(head, s, k) && entry != head && entry !in s
    modifies head, s, entry
    ensures if k == -1 then IsRing(entry, s) else IsRing(head, s[k := entry])
    ensures IsRing(target, [])
  {
    ListReplace(target, entry, head, s, k);
    InitListHead(target);
  }

  // ----- move -----

  /** Moves the entry at position `k` of the ring at `src` to the front of the ring at `head`, which is
      either the same ring or a disjoint one with entries `t`. */
  method ListMove(entry: ListHead, head: ListHead,
                  ghost src: ListHead, ghost s: seq<ListHead>, ghost k: nat, ghost t: seq<ListHead>)
    requires IsRing(src, s) && k < |s| && entry == s[k]
    requires head != src ==> IsRing(head, t) && Disjoint(src, s, head, t)
    modifies src, s, head, t
    ensures if head == src then IsRing(head, [entry] + Without(s, k))
            else IsRing(src, Without(s, k)) && IsRing(head, [entry] + t)
  {
    WithoutDistinct(src, s, k);
    ListDelBetween(entry.prev, entry.next, src, s, k);
    ghost var u := if head == src then Without(s, k) else t;
    assert IsRing(head, u);
    assert entry in s && entry !in u;
    ListAdd(entry, head, u);
  }

  method ListMoveTail(entry: ListHead, head: ListHead,
                      ghost src: ListHead, ghost s: seq<ListHead>, ghost k: nat, ghost t: seq<ListHead>)
    requires IsRing(src, s) && k < |s| && entry == s[k]
    requires head != src ==> IsRing(head, t) && Disjoint(src, s, head, t)
    modifies src, s, head, t
    ensures if head == src then IsRing(head, Without(s, k) + [entry])
            else IsRing(src, Without(s, k)) && IsRing(head, t + [entry])
  {
    WithoutDistinct(src, s, k);
    ListDelBetween(entry.prev, entry.next, src, s, k);
    ghost var u := if head == src then Without(s, k) else t;
    assert IsRing(head, u);
    assert entry in s && entry !in u;
    ListAddTail(entry, head, u);
  }

  // ----- rotate -----

  ghost function RotateLeft<T>(s: seq<T>): seq<T> {
    if s == [] then s else s[1..] + [s[0]]
  }

  ghost function RotateTimes<T>(s: seq<T>, n: nat): seq<T>
    decreases n
  {
    if n == 0 then s else RotateTimes(RotateLeft(s), n - 1)
  }

  /** `n` rotations of `n` entries are the identity. */
  lemma RotateAround<T>(s: seq<T>)
    ensures RotateTimes(s, |s|) == s
  {
    RotatePart(s, |s|);
  }

  /** Rotating moves the cut between the two parts by one. */
  lemma RotateCut<T>(s: seq<T>, n: nat)
    requires 0 < n <= |s|
    ensures RotateLeft(s[n - 1..] + s[..n - 1]) == s[n..] + s[..n]
  {
    var front, x, back := s[..n - 1], s[n - 1], s[n..];
    assert s[n - 1..] == [x] + back && s[..n] == front + [x];
    assert (s[n - 1..] + front)[1..] == back + front;
    assert (back + front) + [x] == back + (front + [x]);
  }

  lemma {:induction false} RotatePart<T>(s: seq<T>, n: nat)
    requires n <= |s|
    ensures RotateTimes(s, n) == s[n..] + s[..n]
  {
    if n > 0 {
      RotateStep(s, n - 1);
      RotatePart(s, n - 1);
      RotateCut(s, n);
    }
  }

  lemma {:induction false} RotateStep<T>(s: seq<T>, n: nat)
    ensures RotateTimes(s, n + 1) == RotateLeft(RotateTimes(s, n))
    decreases n
  {
    if n > 0 {
      RotateStep(RotateLeft(s), n - 1);
    }
  }

  lemma RotateNodes(s: seq<ListHead>)
    ensures Members(RotateLeft(s)) == Members(s)
  {
    if s != [] {
      assert s == [s[0]] + s[1..];
    }
  }

  method ListRotateLeft(head: ListHead, ghost s: seq<ListHead>)
    requires IsRing(head, s)
    modifies head, s
    ensures IsRing(head, RotateLeft(s))
    ensures IsRing(head, if s == [] then [] else s[1..] + [s[0]])
  {
    EmptyTest(head, s);
    if !ListEmpty(head) {
      var first := head.next;
      ListMoveTail(first, head, head, s, 0, []);
      assert Without(s, 0) + [first] == RotateLeft(s);
    }
  }

  method ListRotateMany(head: ListHead, n: nat, ghost s: seq<ListHead>, ghost nodes: set<ListHead>)
    requires IsRing(head, s) && nodes == Members(s)
    modifies head, nodes
    ensures IsRing(head, RotateTimes(s, n))
    ensures n == |s| ==> IsRing(head, s)
  {
    for i := 0 to n
      invariant IsRing(head, RotateTimes(s, i)) && nodes == Members(RotateTimes(s, i))
    {
      RotateStep(s, i);
      RotateNodes(RotateTimes(s, i));
      ListRotateLeft(head, RotateTimes(s, i));
    }
    RotateAround(s);
  }

  // ----- splice -----

  /** The first link chain of `t` without its way in and out. */
  ghost predicate Inner(t: seq<ListHead>)
    reads t
  {
    && (forall i {:trigger t[i].next} :: 0 <= i < |t| - 1 ==> t[i].next == t[i + 1])
    && (forall i {:trigger t[i].prev} :: 1 <= i < |t| ==> t[i].prev == t[i - 1])
  }

  ghost function Joined(s: seq<ListHead>, k: nat, t: seq<ListHead>): seq<ListHead>
    requires k <= |s|
  {
    s[..k] + t + s[k..]
  }

  lemma NextJoin(head: ListHead, s: seq<ListHead>, k: nat, t: seq<ListHead>)
    requires k <= |s| && t != [] && Inner(t) && NextChainBut(head, s, k - 1)
    requires At(head, s, k - 1).next == t[0] && t[|t| - 1].next == At(head, s, k)
    ensures NextChain(head, Joined(s, k, t))
  {
    var u := Joined(s, k, t);
    forall i | 0 <= i < |u| ensures u[i].next == At(head, u, i + 1) {
      if k <= i < k + |t| {
        assert u[i] == t[i - k];
      } else if k + |t| <= i {
        assert u[i] == s[i - |t|];
      }
    }
  }

  lemma PrevJoin(head: ListHead, s: seq<ListHead>, k: nat, t: seq<ListHead>)
    requires k <= |s| && t != [] && Inner(t) && PrevChainBut(head, s, k)
    requires At(head, s, k).prev == t[|t| - 1] && t[0].prev == At(head, s, k - 1)
    ensures PrevChain(head, Joined(s, k, t))
  {
    var u := Joined(s, k, t);
    forall i | 0 <= i < |u| ensures u[i].prev == At(head, u, i - 1) {
      if k <= i < k + |t| {
        assert u[i] == t[i - k];
      } else if k + |t| <= i {
        assert u[i] == s[i - |t|];
      }
    }
  }

  lemma JoinedDistinct(list: ListHead, t: seq<ListHead>, head: ListHead, s: seq<ListHead>, k: nat)
    requires Distinct(list, t) && Distinct(head, s) && Disjoint(list, t, head, s) && k <= |s|
    ensures Distinct(head, Joined(s, k, t))
  {
    var u := Joined(s, k, t);
    assert forall i :: 0 <= i < |u| ==> u[i] == if i < k then s[i] else if i < k + |t| then t[i - k] else s[i - |t|];
    assert forall i :: 0 <= i < |t| ==> t[i] in t && t[i] !in s;
  }

  /** `__list_splice` into gap `k`. The head `list` keeps its links into the joined ring. */
  method ListSpliceBetween(list: ListHead, prev: ListHead, next: ListHead, ghost t: seq<ListHead>,
                           ghost head: ListHead, ghost s: seq<ListHead>, ghost k: nat)
    requires IsRing(list, t) && t != [] && IsRing(head, s) && Disjoint(list, t, head, s) && k <= |s|
    requires prev == At(head, s, k - 1) && next == At(head, s, k)
    modifies t, prev`next, next`prev
    ensures IsRing(head, Joined(s, k, t))
  {
    assert forall i :: 0 <= i < |t| ==> t[i] in t && t[i] !in s && t[i] != head;
    assert prev !in t && next !in t;
    var first, last := list.next, list.prev;
    first.prev := prev;
    prev.next := first;
    last.next := next;
    next.prev := last;
    assert first == t[0] && last == t[|t| - 1];
    assert Inner(t);
    assert NextChainBut(head, s, k - 1);
    assert PrevChainBut(head, s, k);
    NextJoin(head, s, k, t);
    PrevJoin(head, s, k, t);
    JoinedDistinct(list, t, head, s, k);
  }

  method ListSplice(list: ListHead, head: ListHead, ghost t: seq<ListHead>, ghost s: seq<ListHead>)
    requires IsRing(list, t) && IsRing(head, s) && Disjoint(list, t, head, s)
    modifies t, head, s
    ensures IsRing(head, t + s)
    ensures unchanged(list)
  {
    EmptyTest(list, t);
    if !ListEmpty(list) {
      ListSpliceBetween(list, head, head.next, t, head, s, 0);
      assert Joined(s, 0, t) == t + s;
    } else {
      assert t + s == s;
    }
  }

  method ListSpliceTail(list: ListHead, head: ListHead, ghost t: seq<ListHead>, ghost s: seq<ListHead>)
    requires IsRing(list, t) && IsRing(head, s) && Disjoint(list, t, head, s)
    modifies t, head, s
    ensures IsRing(head, s + t)
    ensures unchanged(list)
  {
    EmptyTest(list, t);
    if !ListEmpty(list) {
      ListSpliceBetween(list, head.prev, head, t, head, s, |s|);
      assert Joined(s, |s|, t) == s + t;
    } else {
      assert s + t == s;
    }
  }

  method ListSpliceInit(list: ListHead, head: ListHead, ghost t: seq<ListHead>, ghost s: seq<ListHead>)
    requires IsRing(list, t) && IsRing(head, s) && Disjoint(list, t, head, s)
    modifies list, t, head, s
    ensures IsRing(head, t + s) && IsRing(list, [])
  {
    EmptyTest(list, t);
    if !ListEmpty(list) {
      ListSpliceBetween(list, head, head.next, t, head, s, 0);
      InitListHead(list);
      assert Joined(s, 0, t) == t + s;
    } else {
      assert t + s == s;
    }
  }

  method ListSpliceTailInit(list: ListHead, head: ListHead, ghost t: seq<ListHead>, ghost s: seq<ListHead>)
    requires IsRing(list, t) && IsRing(head, s) && Disjoint(list, t, head, s)
    modifies list, t, head, s
    ensures IsRing(head, s + t) && IsRing(list, [])
  {
    EmptyTest(list, t);
    if !ListEmpty(list) {
      ListSpliceBetween(list, head.prev, head, t, head, s, |s|);
      InitListHead(list);
      assert Joined(s, |s|, t) == s + t;
    } else {
      assert s + t == s;
    }
  }

  // ----- cut -----

  /** `__list_cut_position`: the first `m` entries, up to and including `entry`, go to `list`. */
  method ListCutAt(list: ListHead, head: ListHead, entry: ListHead, ghost s: seq<ListHead>, ghost m: nat)
    requires IsRing(head, s) && 1 <= m <= |s| && entry == s[m - 1] && list != head && list !in s
    modifies list, head, s
    ensures IsRing(list, s[..m]) && IsRing(head, s[m..])
  {
    var newFirst := entry.next;
    list.next := head.next;
    list.next.prev := list;
    list.prev := entry;
    entry.next := list;
    head.next := newFirst;
    newFirst.prev := head;
  }

  /** The number of entries that `list_cut_position` moves: none for an empty ring, for the head, and for a
      ring of one entry that is not `entry`. */
  ghost function CutLength(s: seq<ListHead>, entry: ListHead): (m: nat)
    ensures m <= |s| && (entry in s <==> m > 0) && (m > 0 ==> s[m - 1] == entry)
  {
    if entry in s then
      var k :| 0 <= k < |s| && s[k] == entry;
      k + 1
    else 0
  }

  method ListCutPosition(list: ListHead, head: ListHead, entry: ListHead, ghost s: seq<ListHead>)
    requires IsRing(head, s) && list != head && list !in s
    requires entry == head || entry in s || |s| <= 1
    modifies list, head, s
    ensures IsRing(head, s[CutLength(s, entry)..])
    ensures entry in s ==> IsRing(list, s[..CutLength(s, entry)])
    ensures entry == head && s != [] ==> IsRing(list, [])
    ensures s == [] || (entry != head && entry !in s) ==> unchanged(list)
  {
    RingTests(head, s);
    if ListEmpty(head) {
      return;
    }
    if ListIsSingular(head) && head.next != entry && head != entry {
      return;
    }
    if entry == head {
      InitListHead(list);
    } else {
      ListCutAt(list, head, entry, s, CutLength(s, entry));
    }
  }

  // ----- cut and splice undo each other -----

  method CutThenSplice(list: ListHead, head: ListHead, entry: ListHead, ghost s: seq<ListHead>)
    requires IsRing(head, s) && IsRing(list, []) && list != head && list !in s
    requires entry == head || entry in s
    modifies list, head, s
    ensures IsRing(head, s)
  {
    ListCutPosition(list, head, entry, s);
    ghost var m := CutLength(s, entry);
    assert s[..m] + s[m..] == s;
    ListSplice(list, head, s[..m], s[m..]);
  }

  method SpliceThenCut(list: ListHead, head: ListHead, ghost t: seq<ListHead>, ghost s: seq<ListHead>)
    requires IsRing(list, t) && IsRing(head, s) && Disjoint(list, t, head, s) && t != []
    modifies list, head, s, t
    ensures IsRing(list, t) && IsRing(head, s)
  {
    var last := list.prev;
    ListSpliceInit(list, head, t, s);
    ListCutPosition(list, head, last, t + s);
    assert (t + s)[|t| - 1] == last;
    assert CutLength(t + s, last) == |t|;
    assert (t + s)[..|t|] == t && (t + s)[|t|..] == s;
  }
}
