/**
 * Mode tables: a next-mode function that walks a list of modes in a ring.
 * Every controller's short-press table is an instance.
 */
module Cycles {
  /** f applied n times. */
  function Iterate<T>(f: T -> T, x: T, n: nat): T
  {
    if n == 0 then x else f(Iterate(f, x, n - 1))
  }

  /** f sends each entry of the ring c to the next one and the last back to the first. */
  ghost predicate AdvancesAlong<T>(f: T -> T, c: seq<T>)
  {
    |c| > 0 &&
    (forall i :: 0 <= i < |c| - 1 ==> f(c[i]) == c[i + 1]) &&
    f(c[|c| - 1]) == c[0]
  }

  lemma {:induction false} IterateAdd<T>(f: T -> T, x: T, a: nat, b: nat)
    ensures Iterate(f, x, a + b) == Iterate(f, Iterate(f, x, a), b)
  {
    if b > 0 {
      IterateAdd(f, x, a, b - 1);
    }
  }

  lemma {:induction false} IterateAlong<T>(f: T -> T, c: seq<T>, i: nat, k: nat)
    requires AdvancesAlong(f, c) && i + k < |c|
    ensures Iterate(f, c[i], k) == c[i + k]
  {
    if k > 0 {
      IterateAlong(f, c, i, k - 1);
    }
  }

  /** Walking the whole ring from any entry comes back to that entry. */
  lemma {:induction false} RingPeriod<T>(f: T -> T, c: seq<T>, i: nat)
    requires AdvancesAlong(f, c) && i < |c|
    ensures Iterate(f, c[i], |c|) == c[i]
  {
    var n := |c|;
    IterateAlong(f, c, i, n - 1 - i);
    IterateAdd(f, c[i], n - 1 - i, 1);
    assert Iterate(f, c[i], n - i) == c[0];
    IterateAdd(f, c[i], n - i, i);
    IterateAlong(f, c, 0, i);
  }

  /** Walking fewer steps than the ring's length never comes back, if the ring has no repeats. */
  lemma {:induction false} RingNoShorterPeriod<T>(f: T -> T, c: seq<T>, i: nat, k: nat)
    requires AdvancesAlong(f, c) && i < |c| && 0 < k < |c|
    requires forall p, q :: 0 <= p < q < |c| ==> c[p] != c[q]
    ensures Iterate(f, c[i], k) != c[i]
  {
    var n := |c|;
    if i + k < n {
      IterateAlong(f, c, i, k);
    } else {
      IterateAlong(f, c, i, n - 1 - i);
      IterateAdd(f, c[i], n - 1 - i, 1);
      IterateAdd(f, c[i], n - i, k - (n - i));
      IterateAlong(f, c, 0, k - (n - i));
    }
  }

  /** A ring without repeats comes back to every entry after exactly its length. */
  lemma RingExactPeriod<T>(f: T -> T, c: seq<T>, i: nat)
    requires AdvancesAlong(f, c) && i < |c|
    requires forall p, q :: 0 <= p < q < |c| ==> c[p] != c[q]
    ensures Iterate(f, c[i], |c|) == c[i]
    ensures forall k :: 0 < k < |c| ==> Iterate(f, c[i], k) != c[i]
  {
    RingPeriod(f, c, i);
    forall k | 0 < k < |c| ensures Iterate(f, c[i], k) != c[i] {
      RingNoShorterPeriod(f, c, i, k);
    }
  }

  /** The integers lo, lo + 1, ..., hi - 1. */
  function Range(lo: int, hi: int): (r: seq<int>)
    requires lo <= hi
    ensures |r| == hi - lo
    ensures forall i :: 0 <= i < |r| ==> r[i] == lo + i
  {
    seq(hi - lo, i => lo + i)
  }

  /**
   * A counter step that adds one inside [lo, hi) and wraps from hi - 1 to lo
   * returns to any start value after hi - lo steps, and not before.
   */
  lemma CounterPeriod(f: int -> int, lo: int, hi: int, x: int)
    requires lo < hi && lo <= x < hi
    requires forall y :: lo <= y < hi - 1 ==> f(y) == y + 1
    requires f(hi - 1) == lo
    ensures Iterate(f, x, hi - lo) == x
    ensures forall k :: 0 < k < hi - lo ==> Iterate(f, x, k) != x
  {
    var c := Range(lo, hi);
    assert AdvancesAlong(f, c) by {
      forall i | 0 <= i < |c| - 1 ensures f(c[i]) == c[i + 1] {
        assert c[i] == lo + i;
      }
    }
    assert c[x - lo] == x;
    RingPeriod(f, c, x - lo);
    forall k | 0 < k < hi - lo ensures Iterate(f, x, k) != x {
      RingNoShorterPeriod(f, c, x - lo, k);
    }
  }
}
