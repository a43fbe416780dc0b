/** The traversal macros of inc/dlist.h as loops over a moving cursor. */
module Traversal {
  import opened Ring

  method ListForEach(head: ListHead, ghost s: seq<ListHead>) returns (visited: seq<ListHead>)
    requires IsRing(head, s)
    ensures visited == s
  {
    visited := [];
    var pos: ListHead := head.next;
    ghost var i := 0;
    while pos != head
      invariant 0 <= i <= |s| && pos == At(head, s, i) && visited == s[..i]
      decreases |s| - i
    {
      visited := visited + [pos];
      pos := pos.next;
      i := i + 1;
    }
    assert i == |s| by {
      assert i < |s| ==> At(head, s, i) in s;
    }
  }

  method ListForEachPrev(head: ListHead, ghost s: seq<ListHead>) returns (visited: seq<ListHead>)
    requires IsRing(head, s)
    ensures |visited| == |s| && forall j :: 0 <= j < |s| ==> visited[j] == s[|s| - 1 - j]
  {
    visited := [];
    var pos: ListHead := head.prev;
    ghost var i := |s|;
    while pos != head
      invariant 0 <= i <= |s| && pos == At(head, s, i - 1) && |visited| == |s| - i
      invariant forall j :: 0 <= j < |visited| ==> visited[j] == s[|s| - 1 - j]
      decreases i
    {
      visited := visited + [pos];
      pos := pos.prev;
      i := i - 1;
    }
    assert i == 0 by {
      assert i > 0 ==> At(head, s, i - 1) in s;
    }
  }

  /** The entries of `s` that are not in `doomed`, in order. */
  ghost function Kept(s: seq<ListHead>, doomed: set<ListHead>): seq<ListHead> {
    if s == [] then [] else (if s[0] in doomed then [] else [s[0]]) + Kept(s[1..], doomed)
  }

  lemma {:induction false} KeptMember(s: seq<ListHead>, doomed: set<ListHead>, x: ListHead)
    ensures x in Kept(s, doomed) <==> x in s && x !in doomed
  {
    if s != [] {
      KeptMember(s[1..], doomed, x);
      assert s == [s[0]] + s[1..];
    }
  }

  /** Kept entries stay in their order. */
  lemma {:induction false} KeptConcat(a: seq<ListHead>, b: seq<ListHead>, doomed: set<ListHead>)
    ensures Kept(a + b, doomed) == Kept(a, doomed) + Kept(b, doomed)
  {
    if a == [] {
      assert a + b == b && [] + Kept(b, doomed) == Kept(b, doomed);
    } else {
      assert (a + b)[1..] == a[1..] + b;
      KeptConcat(a[1..], b, doomed);
    }
  }

  lemma {:induction false} KeptAll(s: seq<ListHead>, doomed: set<ListHead>)
    requires forall x :: x in s ==> x !in doomed
    ensures Kept(s, doomed) == s
  {
    if s != [] {
      KeptAll(s[1..], doomed);
      assert s == [s[0]] + s[1..];
    }
  }

  lemma KeptLaws(s: seq<ListHead>, doomed: set<ListHead>)
    ensures forall x :: x in Kept(s, doomed) <==> x in s && x !in doomed
    ensures doomed !! Members(s) ==> Kept(s, doomed) == s
  {
    forall x ensures x in Kept(s, doomed) <==> x in s && x !in doomed {
      KeptMember(s, doomed, x);
    }
    if doomed !! Members(s) {
      assert forall x :: x in s ==> x in Members(s);
      KeptAll(s, doomed);
    }
  }

  /** Entries whose links list_del has poisoned. */
  ghost predicate Poisoned(s: seq<ListHead>, doomed: set<ListHead>)
    reads s
  {
    forall j :: 0 <= j < |s| && s[j] in doomed ==> s[j].next == null && s[j].prev == null
  }

  /** The body of the safe loop: it deletes the current entry when that is in `doomed`. */
  method DeleteIf(pos: ListHead, head: ListHead, doomed: set<ListHead>, ghost done: seq<ListHead>,
                  ghost rest: seq<ListHead>)
    requires rest != [] && pos == rest[0] && IsRing(head, done + rest)
    modifies head, Members(done + rest)
    ensures IsRing(head, KeptPast(done, pos, doomed) + rest[1..])
    ensures pos in doomed ==> IsRing(head, done + rest[1..]) && pos.next == null && pos.prev == null
    ensures pos !in doomed ==> IsRing(head, done + rest)
  {
    if pos in doomed {
      ghost var left, k := done + rest, |done|;
      assert Without(left, k) == done + rest[1..];
      assert k > 0 ==> left[k - 1] in left;
      assert k + 1 < |left| ==> left[k + 1] in left;
      assert left[k] in left;
      ListDel(pos, head, left, k);
    } else {
      assert done + rest == (done + [pos]) + rest[1..];
    }
  }

  /** What is kept once the cursor has gone past `pos`. */
  ghost function KeptPast(done: seq<ListHead>, pos: ListHead, doomed: set<ListHead>): seq<ListHead> {
    if pos in doomed then done else done + [pos]
  }

  lemma Shift(a: seq<ListHead>, rest: seq<ListHead>)
    requires rest != []
    ensures (a + [rest[0]]) + rest[1..] == a + rest
  {
  }

  lemma KeptShift(done: seq<ListHead>, rest: seq<ListHead>, doomed: set<ListHead>)
    requires rest != []
    ensures done + Kept(rest, doomed) == KeptPast(done, rest[0], doomed) + Kept(rest[1..], doomed)
  {
    var tail := Kept(rest[1..], doomed);
    assert done + ([rest[0]] + tail) == (done + [rest[0]]) + tail;
    assert [] + tail == tail;
  }

  /** When the cursor is at `rest`: what was visited and kept so far, and what is still linked. */
  ghost predicate SafeAt(head: ListHead, doomed: set<ListHead>, s: seq<ListHead>, visited: seq<ListHead>,
                         done: seq<ListHead>, rest: seq<ListHead>)
    reads head, done + rest
  {
    && visited + rest == s && Kept(s, doomed) == done + Kept(rest, doomed)
    && IsRing(head, done + rest)
  }

  /** The visited entries in `doomed` have left the ring and are poisoned. */
  ghost predicate Gone(doomed: set<ListHead>, visited: seq<ListHead>, left: seq<ListHead>)
    reads visited
  {
    && Poisoned(visited, doomed)
    && forall x :: x in visited && x in doomed ==> x !in left
  }

  lemma SafeAdvance(head: ListHead, doomed: set<ListHead>, s: seq<ListHead>, visited: seq<ListHead>,
                    done: seq<ListHead>, rest: seq<ListHead>)
    requires rest != [] && visited + rest == s && Kept(s, doomed) == done + Kept(rest, doomed)
    requires IsRing(head, KeptPast(done, rest[0], doomed) + rest[1..])
    ensures SafeAt(head, doomed, s, visited + [rest[0]], KeptPast(done, rest[0], doomed), rest[1..])
  {
    Shift(visited, rest);
    KeptShift(done, rest, doomed);
  }

  /** Where the entries still linked come from. */
  lemma StillLinked(head: ListHead, doomed: set<ListHead>, done: seq<ListHead>, rest: seq<ListHead>)
    requires rest != [] && Distinct(head, done + rest)
    ensures forall x :: x in KeptPast(done, rest[0], doomed) + rest[1..] ==> x in done + rest
    ensures rest[0] in doomed ==> rest[0] !in KeptPast(done, rest[0], doomed) + rest[1..]
  {
    var left, k := done + rest, |done|;
    WithoutDistinct(head, left, k);
    assert left[k] == rest[0] && Without(left, k) == done + rest[1..];
    assert rest[0] in rest && forall x :: x in rest[1..] ==> x in rest;
  }

  lemma NextInRest(head: ListHead, done: seq<ListHead>, rest: seq<ListHead>)
    requires IsRing(head, done + rest)
    ensures At(head, rest, 0).next != null
    ensures rest != [] ==> rest[0] != head && rest[0].next == At(head, rest, 1)
  {
    var left := done + rest;
    if rest != [] {
      assert left[|done|] == rest[0] && left[|done|].next == At(head, left, |done| + 1);
      assert left[|done|] in left;
    }
  }

  /** One round of the safe loop up to the move of the cursor. */
  method SafeRound(pos: ListHead, head: ListHead, doomed: set<ListHead>, ghost s: seq<ListHead>,
                   ghost visited: seq<ListHead>, ghost done: seq<ListHead>, ghost rest: seq<ListHead>)
    requires SafeAt(head, doomed, s, visited, done, rest) && Gone(doomed, visited, done + rest)
    requires rest != [] && pos == rest[0]
    modifies head, Members(done + rest)
    ensures SafeAt(head, doomed, s, visited + [pos], KeptPast(done, pos, doomed), rest[1..])
    ensures Gone(doomed, visited + [pos], KeptPast(done, pos, doomed) + rest[1..])
    ensures Members(KeptPast(done, pos, doomed) + rest[1..]) <= Members(done + rest)
    ensures rest[1..] != [] ==> rest[1].next == At(head, rest, 2)
    ensures At(head, rest, 1).next != null
  {
    StillLinked(head, doomed, done, rest);
    DeleteIf(pos, head, doomed, done, rest);
    SafeAdvance(head, doomed, s, visited, done, rest);
    NextInRest(head, KeptPast(done, pos, doomed), rest[1..]);
  }

  /** `list_for_each_safe` with that body: every entry is visited once, in order, the entries outside `doomed`
      stay linked, and those in `doomed` end up poisoned. */
  method ListForEachSafe(head: ListHead, doomed: set<ListHead>, ghost s: seq<ListHead>)
      returns (visited: seq<ListHead>)
    requires IsRing(head, s)
    modifies head, s
    ensures visited == s
    ensures IsRing(head, Kept(s, doomed))
    ensures forall x :: x in s && x in doomed ==> x.next == null && x.prev == null
    ensures forall x :: x in Kept(s, doomed) <==> x in s && x !in doomed
    ensures doomed !! Members(s) ==> IsRing(head, s)
  {
    visited := [];
    var pos: ListHead := head.next;
    var n: ListHead := pos.next;
    ghost var done: seq<ListHead>, rest := [], s;
    ghost var nodes := Members(s);
    assert done + rest == s;
    while pos != head
      invariant SafeAt(head, doomed, s, visited, done, rest) && Gone(doomed, visited, done + rest)
      invariant pos == At(head, rest, 0) && (rest != [] ==> n == At(head, rest, 1))
      invariant Members(done + rest) <= nodes
      decreases |rest|
    {
      SafeRound(pos, head, doomed, s, visited, done, rest);
      visited := visited + [pos];
      done := KeptPast(done, pos, doomed);
      rest := rest[1..];
      pos := n;
      n := pos.next;
    }
    NextInRest(head, done, rest);
    assert visited + [] == visited && done + [] == done;
    KeptLaws(s, doomed);
  }
}
