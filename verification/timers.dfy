/** Sequence helpers shared by the components that keep a list of vessels
    and a parallel list of timers: the "ignore an event" decrement, the
    first-minimum search of Python's `min(enumerate(ts), key=...)`, removal
    at an index (`list.pop(i)`) and the stable sort of `sorted(..., key=...)`. */
module Timers {

  /** Every timer lowered by `d`: each new timer plus `d` gives back the old
      one, so the absolute deadline "now + timer" is unchanged when the clock
      moves by `d`. */
  function Lower(ts: seq<real>, d: real): (r: seq<real>)
    ensures |r| == |ts|
    ensures forall i :: 0 <= i < |ts| ==> r[i] + d == ts[i]
  {
    seq(|ts|, i requires 0 <= i < |ts| => ts[i] - d)
  }

  /** Waiting `a` and then `b` with a decrement each time is the same as one
      continuous wait of `a + b`: the ignore-an-event pattern does not drift. */
  lemma LowerTwice(ts: seq<real>, a: real, b: real)
    ensures Lower(Lower(ts, a), b) == Lower(ts, a + b)
  {
    var l := Lower(Lower(ts, a), b);
    var r := Lower(ts, a + b);
    assert |l| == |r|;
    forall i | 0 <= i < |l| ensures l[i] == r[i] {
      assert l[i] + b == Lower(ts, a)[i];
      assert Lower(ts, a)[i] + a == ts[i];
      assert r[i] + (a + b) == ts[i];
    }
  }

  /** `k` is the first position holding a smallest element of `ts`. */
  predicate IsFirstMin(ts: seq<real>, k: nat) {
    && k < |ts|
    && (forall j :: 0 <= j < |ts| ==> ts[k] <= ts[j])
    && (forall j :: 0 <= j < k ==> ts[k] < ts[j])
  }

  /** The position of the first smallest timer, found by the left-to-right
      scan Python's `min` performs (a later element replaces the candidate
      only when it is strictly smaller). */
  function FirstArgMin(ts: seq<real>): (i: nat)
    requires |ts| > 0
    ensures IsFirstMin(ts, i)
  {
    if |ts| == 1 then 0
    else
      var k := FirstArgMin(ts[..|ts| - 1]);
      if ts[|ts| - 1] < ts[k] then |ts| - 1 else k
  }

  /** Only one position is the first minimum, so the scan's answer is the
      only one possible. */
  lemma FirstArgMinIsUnique(ts: seq<real>, i: nat)
    requires IsFirstMin(ts, i)
    ensures FirstArgMin(ts) == i
  {
  }

  /** `list.pop(i)`: the element at `i` leaves, everything else keeps its
      relative order. */
  function RemoveAt<T>(s: seq<T>, i: nat): (r: seq<T>)
    requires i < |s|
    ensures |r| == |s| - 1
    ensures forall j :: 0 <= j < i ==> r[j] == s[j]
    ensures forall j :: i <= j < |r| ==> r[j] == s[j + 1]
    ensures multiset(r) + multiset{s[i]} == multiset(s)
  {
    assert s == s[..i] + [s[i]] + s[i + 1..];
    s[..i] + s[i + 1..]
  }

  // ---------------------------------------------------------------------
  // Stable sort by a real key (Python's `sorted(xs, key=...)`).

  ghost predicate SortedBy<T>(xs: seq<T>, key: T -> real) {
    forall i, j :: 0 <= i < j < |xs| ==> key(xs[i]) <= key(xs[j])
  }

  /** The elements whose key equals `k`, in their original order. */
  function WithKey<T>(xs: seq<T>, key: T -> real, k: real): seq<T> {
    if |xs| == 0 then []
    else (if key(xs[0]) == k then [xs[0]] else []) + WithKey(xs[1..], key, k)
  }

  /** A head no larger than the first key of a sorted tail keeps it sorted. */
  lemma SortedCons<T>(h: T, t: seq<T>, key: T -> real)
    requires SortedBy(t, key)
    requires |t| > 0 ==> key(h) <= key(t[0])
    ensures SortedBy([h] + t, key)
  {
    var r := [h] + t;
    forall i, j | 0 <= i < j < |r| ensures key(r[i]) <= key(r[j]) {
      if i > 0 {
        assert r[i] == t[i - 1] && r[j] == t[j - 1];
      } else {
        assert r[j] == t[j - 1];
        assert key(t[0]) <= key(t[j - 1]) || j - 1 == 0;
      }
    }
  }

  /** Insert `x` in front of the first element whose key is not smaller
      than `x`'s, i.e. before all elements with an equal key. */
  function InsertByKey<T>(x: T, xs: seq<T>, key: T -> real): (r: seq<T>)
    requires SortedBy(xs, key)
    ensures SortedBy(r, key)
    ensures multiset(r) == multiset(xs) + multiset{x}
    ensures |r| == |xs| + 1
    ensures r[0] == x || (|xs| > 0 && r[0] == xs[0])
  {
    if |xs| == 0 || key(x) <= key(xs[0]) then
      SortedCons(x, xs, key);
      [x] + xs
    else
      var rest := InsertByKey(x, xs[1..], key);
      assert xs == [xs[0]] + xs[1..];
      assert |xs| > 1 ==> key(xs[0]) <= key(xs[1]);
      SortedCons(xs[0], rest, key);
      [xs[0]] + rest
  }

  /** Stable insertion sort: the head of the list is inserted before the
      equal keys of the sorted tail. */
  function SortByKey<T>(xs: seq<T>, key: T -> real): (r: seq<T>)
    ensures SortedBy(r, key)
    ensures multiset(r) == multiset(xs)
    ensures |r| == |xs|
  {
    if |xs| == 0 then []
    else
      assert xs == [xs[0]] + xs[1..];
      InsertByKey(xs[0], SortByKey(xs[1..], key), key)
  }

  lemma {:induction false} WithKeyInsert<T>(x: T, xs: seq<T>, key: T -> real, k: real)
    requires SortedBy(xs, key)
    ensures WithKey(InsertByKey(x, xs, key), key, k)
            == (if key(x) == k then [x] else []) + WithKey(xs, key, k)
  {
    var r := InsertByKey(x, xs, key);
    if |xs| == 0 || key(x) <= key(xs[0]) {
      assert r[1..] == xs;
    } else {
      var rest := InsertByKey(x, xs[1..], key);
      assert r[0] == xs[0] && r[1..] == rest;
      WithKeyInsert(x, xs[1..], key, k);
    }
  }

  /** Stability: for every key value, the elements carrying it appear in the
      sorted list in the same relative order as in the input.  Together with
      sortedness this determines the sort's result completely. */
  lemma {:induction false} SortByKeyIsStable<T>(xs: seq<T>, key: T -> real, k: real)
    ensures WithKey(SortByKey(xs, key), key, k) == WithKey(xs, key, k)
  {
    if |xs| > 0 {
      SortByKeyIsStable(xs[1..], key, k);
      WithKeyInsert(xs[0], SortByKey(xs[1..], key), key, k);
    }
  }

  /** Sorting one or two elements, spelled out for concrete scenarios. */
  lemma {:induction false} SortSmall<T>(a: T, b: T, key: T -> real)
    ensures SortByKey([a], key) == [a]
    ensures SortByKey([a, b], key) == if key(a) <= key(b) then [a, b] else [b, a]
  {
    assert [a][1..] == [];
    assert [a, b][1..] == [b];
    assert [b][1..] == [];
  }

  /** Two queue segments chain: what left in the first, then in the second,
      then what remains, is the start plus both arrival batches. */
  lemma FifoCompose<T>(start: seq<T>, out1: seq<T>, mid: seq<T>, in1: seq<T>,
                       out2: seq<T>, fin: seq<T>, in2: seq<T>)
    requires out1 + mid == start + in1
    requires out2 + fin == mid + in2
    ensures (out1 + out2) + fin == start + (in1 + in2)
  {
    calc {
      (out1 + out2) + fin;
      out1 + (out2 + fin);
      out1 + (mid + in2);
      (out1 + mid) + in2;
      (start + in1) + in2;
    }
  }
}
