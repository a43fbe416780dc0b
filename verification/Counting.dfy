/** Sums over the threads of one kind, and how they change when one thread moves. */
module Counting {

  function Sum<T>(f: T -> nat, ts: seq<T>): nat {
    if ts == [] then 0 else f(ts[0]) + Sum(f, ts[1..])
  }

  lemma {:induction false} SumUpdate<T>(f: T -> nat, ts: seq<T>, i: nat, t: T)
    requires i < |ts|
    ensures Sum(f, ts[i := t]) + f(ts[i]) == Sum(f, ts) + f(t)
  {
    var us := ts[i := t];
    if i == 0 {
      assert us[1..] == ts[1..];
    } else {
      assert us[1..] == ts[1..][i - 1 := t];
      SumUpdate(f, ts[1..], i - 1, t);
    }
  }

  lemma {:induction false} SumAtLeast<T>(f: T -> nat, ts: seq<T>, i: nat)
    requires i < |ts|
    ensures Sum(f, ts) >= f(ts[i])
  {
    if i > 0 {
      SumAtLeast(f, ts[1..], i - 1);
    }
  }

  /** A positive sum has a positive summand. */
  lemma {:induction false} SumWitness<T>(f: T -> nat, ts: seq<T>) returns (i: nat)
    requires Sum(f, ts) > 0
    ensures i < |ts| && f(ts[i]) > 0
  {
    if f(ts[0]) > 0 {
      i := 0;
    } else {
      var j := SumWitness(f, ts[1..]);
      i := j + 1;
    }
  }

  lemma {:induction false} SumAtMost<T>(f: T -> nat, ts: seq<T>)
    requires forall i :: 0 <= i < |ts| ==> f(ts[i]) <= 1
    ensures Sum(f, ts) <= |ts|
  {
    if ts != [] {
      SumAtMost(f, ts[1..]);
    }
  }

  lemma {:induction false} SumZero<T>(f: T -> nat, ts: seq<T>)
    requires forall i :: 0 <= i < |ts| ==> f(ts[i]) == 0
    ensures Sum(f, ts) == 0
  {
    if ts != [] {
      SumZero(f, ts[1..]);
    }
  }

  lemma {:induction false} SumAppend<T>(f: T -> nat, ts: seq<T>, t: T)
    ensures Sum(f, ts + [t]) == Sum(f, ts) + f(t)
  {
    if ts == [] {
      assert [] + [t] == [t] && [t][1..] == [];
    } else {
      assert (ts + [t])[1..] == ts[1..] + [t];
      SumAppend(f, ts[1..], t);
    }
  }

  /** How often `n` occurs in `q`. */
  function Count<N(==)>(q: seq<N>, n: N): nat {
    if q == [] then 0 else Count(q[..|q| - 1], n) + if q[|q| - 1] == n then 1 else 0
  }

  lemma CountAppend<N>(q: seq<N>, x: N, n: N)
    ensures Count(q + [x], n) == Count(q, n) + if x == n then 1 else 0
  {
    assert (q + [x])[..|q|] == q;
  }

  lemma {:induction false} CountConcat<N>(q: seq<N>, r: seq<N>, n: N)
    ensures Count(q + r, n) == Count(q, n) + Count(r, n)
  {
    if r == [] {
      assert q + r == q;
    } else {
      var front, last := r[..|r| - 1], r[|r| - 1];
      CountConcat(q, front, n);
      assert q + r == (q + front) + [last];
      CountAppend(q + front, last, n);
    }
  }

  lemma {:induction false} CountIn<N>(q: seq<N>, i: nat)
    requires i < |q|
    ensures Count(q, q[i]) >= 1
    ensures forall j :: i < j < |q| && q[j] == q[i] ==> Count(q, q[i]) >= 2
  {
    if i < |q| - 1 {
      CountIn(q[..|q| - 1], i);
    }
  }

  lemma {:induction false} CountNone<N>(q: seq<N>, n: N)
    ensures n !in q ==> Count(q, n) == 0
  {
    if q != [] {
      CountNone(q[..|q| - 1], n);
    }
  }

  // ----- elements picked out of a sequence -----

  /** The elements of `q` at the positions `ids`. */
  function Picked<N>(q: seq<N>, ids: seq<nat>): (r: seq<N>)
    requires forall i :: 0 <= i < |ids| ==> ids[i] < |q|
    ensures |r| == |ids|
  {
    seq(|ids|, i requires 0 <= i < |ids| => q[ids[i]])
  }

  /** How often `n` occurs in `q` at the positions below `m` that are in `ids`. */
  function Hits<N(==)>(q: seq<N>, ids: seq<nat>, n: N, m: nat): nat
    requires m <= |q|
  {
    if m == 0 then 0 else Hits(q, ids, n, m - 1) + if q[m - 1] == n && (m - 1) in ids then 1 else 0
  }

  lemma {:induction false} HitsNone<N>(q: seq<N>, n: N, m: nat)
    requires m <= |q|
    ensures Hits(q, [], n, m) == 0
  {
    if m > 0 {
      HitsNone(q, n, m - 1);
    }
  }

  lemma {:induction false} HitsAppend<N>(q: seq<N>, ids: seq<nat>, k: nat, n: N, m: nat)
    requires m <= |q| && k < |q| && k !in ids
    ensures Hits(q, ids + [k], n, m) == Hits(q, ids, n, m) + if k < m && q[k] == n then 1 else 0
  {
    if m > 0 {
      HitsAppend(q, ids, k, n, m - 1);
    }
  }

  lemma {:induction false} HitsBound<N>(q: seq<N>, ids: seq<nat>, n: N, m: nat)
    requires m <= |q|
    ensures Hits(q, ids, n, m) <= Count(q[..m], n)
    ensures (forall j: nat :: j < m ==> j in ids) ==> Hits(q, ids, n, m) == Count(q[..m], n)
  {
    if m > 0 {
      HitsBound(q, ids, n, m - 1);
      assert q[..m][..m - 1] == q[..m - 1];
    }
  }

  lemma {:induction false} CountHits<N>(q: seq<N>, ids: seq<nat>, n: N)
    requires forall i :: 0 <= i < |ids| ==> ids[i] < |q|
    requires forall i, j :: 0 <= i < j < |ids| ==> ids[i] != ids[j]
    ensures Count(Picked(q, ids), n) == Hits(q, ids, n, |q|)
    decreases |ids|
  {
    if ids == [] {
      HitsNone(q, n, |q|);
    } else {
      var front, last := ids[..|ids| - 1], ids[|ids| - 1];
      CountHits(q, front, n);
      HitsAppend(q, front, last, n, |q|);
      assert front + [last] == ids;
      assert Picked(q, ids) == Picked(q, front) + [q[last]];
      CountAppend(Picked(q, front), q[last], n);
    }
  }

  /** Picking each position at most once picks no element more often than it occurs, and picking all of them
      picks each as often. */
  lemma CountPicked<N>(q: seq<N>, ids: seq<nat>, n: N)
    requires forall i :: 0 <= i < |ids| ==> ids[i] < |q|
    requires forall i, j :: 0 <= i < j < |ids| ==> ids[i] != ids[j]
    ensures Count(Picked(q, ids), n) <= Count(q, n)
    ensures (forall j: nat :: j < |q| ==> j in ids) ==> Count(Picked(q, ids), n) == Count(q, n)
  {
    CountHits(q, ids, n);
    HitsBound(q, ids, n, |q|);
    assert q[..|q|] == q;
  }

  lemma {:induction false} HitsMissing<N>(q: seq<N>, ids: seq<nat>, k: nat, m: nat)
    requires k < m <= |q| && k !in ids
    ensures Hits(q, ids, q[k], m) < Count(q[..m], q[k])
    decreases m
  {
    assert q[..m][..m - 1] == q[..m - 1];
    if k == m - 1 {
      HitsBound(q, ids, q[k], m - 1);
    } else {
      HitsMissing(q, ids, k, m - 1);
    }
  }

  /** If a position is left out, its element is picked less often than it occurs. */
  lemma CountMissing<N>(q: seq<N>, ids: seq<nat>, k: nat)
    requires forall i :: 0 <= i < |ids| ==> ids[i] < |q|
    requires forall i, j :: 0 <= i < j < |ids| ==> ids[i] != ids[j]
    requires k < |q| && k !in ids
    ensures Count(Picked(q, ids), q[k]) < Count(q, q[k])
  {
    CountHits(q, ids, q[k]);
    HitsMissing(q, ids, k, |q|);
    assert q[..|q|] == q;
  }

  /** What one thread holds in its local variables. */
  datatype Hand<N> = Nothing | One(item: N)

  /** How many of the threads `ts` hold `n`. */
  function Held<T, N(==)>(f: T -> Hand<N>, ts: seq<T>, n: N): nat {
    if ts == [] then 0 else (if f(ts[0]) == One(n) then 1 else 0) + Held(f, ts[1..], n)
  }

  lemma {:induction false} HeldUpdate<T, N>(f: T -> Hand<N>, ts: seq<T>, i: nat, t: T, n: N)
    requires i < |ts|
    ensures Held(f, ts[i := t], n) + (if f(ts[i]) == One(n) then 1 else 0)
         == Held(f, ts, n) + (if f(t) == One(n) then 1 else 0)
  {
    var us := ts[i := t];
    if i == 0 {
      assert us[1..] == ts[1..];
    } else {
      assert us[1..] == ts[1..][i - 1 := t];
      HeldUpdate(f, ts[1..], i - 1, t, n);
    }
  }

  lemma {:induction false} HeldNone<T, N>(f: T -> Hand<N>, ts: seq<T>, n: N)
    requires forall i :: 0 <= i < |ts| ==> f(ts[i]).Nothing?
    ensures Held(f, ts, n) == 0
  {
    if ts != [] {
      HeldNone(f, ts[1..], n);
    }
  }
}
