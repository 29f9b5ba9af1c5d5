/**
 * The in-place sort used for the video and member lists: the comparator
 * `(a, b) => key(b) - key(a)` orders by a numeric key, largest first.
 * Array.prototype.sort is stable. This insertion sort is too: it only moves
 * an element past a strictly smaller key, so elements with equal keys keep
 * their order (`SortIsStable`).
 */
module Sorting {
  predicate NonIncreasing<T>(s: seq<T>, key: T -> real) {
    forall i, j :: 0 <= i < j < |s| ==> key(s[i]) >= key(s[j])
  }

  // ---------------------------------------------------------------------------
  // The sort as a function on sequences
  // ---------------------------------------------------------------------------

  /** Puts `x` after `s`, then lets it pass every strictly smaller key at the end. */
  function InsertLast<T>(s: seq<T>, x: T, key: T -> real): seq<T> {
    if s == [] then [x]
    else if key(s[|s| - 1]) < key(x) then InsertLast(s[..|s| - 1], x, key) + [s[|s| - 1]]
    else s + [x]
  }

  /** Insertion sort, inserting each element in turn into the sorted prefix before it. */
  function InsertionSort<T>(s: seq<T>, key: T -> real): seq<T> {
    if s == [] then [] else InsertLast(InsertionSort(s[..|s| - 1], key), s[|s| - 1], key)
  }

  /** The elements of `s` whose key is `k`, in their order in `s`. */
  function WithKey<T>(s: seq<T>, key: T -> real, k: real): (r: seq<T>)
    ensures |r| <= |s|
  {
    if s == [] then []
    else WithKey(s[..|s| - 1], key, k) + (if key(s[|s| - 1]) == k then [s[|s| - 1]] else [])
  }

  lemma InsertLastPermutes<T>(s: seq<T>, x: T, key: T -> real)
    ensures multiset(InsertLast(s, x, key)) == multiset(s) + multiset{x}
  {
    if s != [] && key(s[|s| - 1]) < key(x) {
      var init := s[..|s| - 1];
      InsertLastPermutes(init, x, key);
      assert s == init + [s[|s| - 1]];
    }
  }

  lemma InsertLastOrders<T>(s: seq<T>, x: T, key: T -> real)
    requires NonIncreasing(s, key)
    ensures NonIncreasing(InsertLast(s, x, key), key)
  {
    if s != [] && key(s[|s| - 1]) < key(x) {
      var init := s[..|s| - 1];
      var last := s[|s| - 1];
      var u := InsertLast(init, x, key);
      InsertLastOrders(init, x, key);
      InsertLastPermutes(init, x, key);
      forall e | e in u ensures key(e) >= key(last) {
        assert e in multiset(u);
        if e != x {
          assert e in multiset(init);
          var p :| 0 <= p < |init| && init[p] == e;
          assert s[p] == e;
        }
      }
      AppendOrders(u, last, key);
    }
  }

  lemma AppendOrders<T>(u: seq<T>, y: T, key: T -> real)
    requires NonIncreasing(u, key)
    requires forall e :: e in u ==> key(e) >= key(y)
    ensures NonIncreasing(u + [y], key)
  {
    var r := u + [y];
    forall i, j | 0 <= i < j < |r| ensures key(r[i]) >= key(r[j]) {
      assert r[i] == u[i];
      if j == |u| {
        assert r[i] in u;
      }
    }
  }

  lemma InsertionSortPermutes<T>(s: seq<T>, key: T -> real)
    ensures multiset(InsertionSort(s, key)) == multiset(s)
  {
    if s != [] {
      var init := s[..|s| - 1];
      InsertionSortPermutes(init, key);
      InsertLastPermutes(InsertionSort(init, key), s[|s| - 1], key);
      assert s == init + [s[|s| - 1]];
    }
  }

  lemma {:induction false} InsertionSortOrders<T>(s: seq<T>, key: T -> real)
    ensures NonIncreasing(InsertionSort(s, key), key)
  {
    if s != [] {
      InsertionSortOrders(s[..|s| - 1], key);
      InsertLastOrders(InsertionSort(s[..|s| - 1], key), s[|s| - 1], key);
    }
  }

  /** An already ordered sequence is left exactly as it is. */
  lemma {:induction false} InsertionSortKeepsOrdered<T>(s: seq<T>, key: T -> real)
    requires NonIncreasing(s, key)
    ensures InsertionSort(s, key) == s
  {
    if s != [] {
      var init := s[..|s| - 1];
      assert NonIncreasing(init, key);
      InsertionSortKeepsOrdered(init, key);
      assert s == init + [s[|s| - 1]];
    }
  }

  lemma {:induction false} WithKeyAppend<T>(u: seq<T>, v: seq<T>, key: T -> real, k: real)
    ensures WithKey(u + v, key, k) == WithKey(u, key, k) + WithKey(v, key, k)
  {
    if v != [] {
      var init := v[..|v| - 1];
      assert (u + v)[..|u + v| - 1] == u + init;
      WithKeyAppend(u, init, key, k);
    } else {
      assert u + v == u;
    }
  }

  lemma WithKeySingle<T>(y: T, key: T -> real, k: real)
    ensures WithKey([y], key, k) == if key(y) == k then [y] else []
  {
    assert [y][..0] == [];
  }

  lemma {:induction false} InsertLastStable<T>(s: seq<T>, x: T, key: T -> real, k: real)
    ensures WithKey(InsertLast(s, x, key), key, k) == WithKey(s + [x], key, k)
  {
    if s == [] {
      assert s + [x] == [x];
    } else if key(s[|s| - 1]) < key(x) {
      var init := s[..|s| - 1];
      var last := s[|s| - 1];
      assert s == init + [last];
      WithKeySingle(x, key, k);
      WithKeySingle(last, key, k);
      calc {
        WithKey(InsertLast(s, x, key), key, k);
        WithKey(InsertLast(init, x, key) + [last], key, k);
        { WithKeyAppend(InsertLast(init, x, key), [last], key, k); }
        WithKey(InsertLast(init, x, key), key, k) + WithKey([last], key, k);
        { InsertLastStable(init, x, key, k); }
        WithKey(init + [x], key, k) + WithKey([last], key, k);
        { WithKeyAppend(init, [x], key, k); }
        WithKey(init, key, k) + WithKey([x], key, k) + WithKey([last], key, k);
        // at most one of `x` and `last` has the key `k`: `last`'s is smaller
        WithKey(init, key, k) + WithKey([last], key, k) + WithKey([x], key, k);
        { WithKeyAppend(init, [last], key, k); }
        WithKey(init + [last], key, k) + WithKey([x], key, k);
        { WithKeyAppend(init + [last], [x], key, k); }
        WithKey(s + [x], key, k);
      }
    }
  }

  /**
   * Stability: for every key value, the elements with that key appear in the
   * sorted sequence in the order they had before.
   */
  lemma {:induction false} SortIsStable<T>(s: seq<T>, key: T -> real, k: real)
    ensures WithKey(InsertionSort(s, key), key, k) == WithKey(s, key, k)
  {
    if s != [] {
      var init := s[..|s| - 1];
      var last := s[|s| - 1];
      var sorted := InsertionSort(init, key);
      calc {
        WithKey(InsertionSort(s, key), key, k);
        WithKey(InsertLast(sorted, last, key), key, k);
        { InsertLastStable(sorted, last, key, k); }
        WithKey(sorted + [last], key, k);
        { WithKeyAppend(sorted, [last], key, k); }
        WithKey(sorted, key, k) + WithKey([last], key, k);
        { SortIsStable(init, key, k); }
        WithKey(init, key, k) + WithKey([last], key, k);
        { WithKeyAppend(init, [last], key, k); assert s == init + [last]; }
        WithKey(s, key, k);
      }
    }
  }

  // ---------------------------------------------------------------------------
  // The sort in place
  // ---------------------------------------------------------------------------

  method SwapDown<T>(a: array<T>, j: int)
    requires 0 < j < a.Length
    modifies a
    ensures a[..] == old(a[..])[j - 1 := old(a[j])][j := old(a[j - 1])]
    ensures multiset(a[..]) == old(multiset(a[..]))
  {
    a[j - 1], a[j] := a[j], a[j - 1];
  }

  /**
   * Sorts `a` so that keys never increase, stably; an already ordered array
   * is left as it is.
   */
  method SortDescendingBy<T>(a: array<T>, key: T -> real)
    modifies a
    ensures a[..] == InsertionSort(old(a[..]), key)
    ensures NonIncreasing(a[..], key)
    ensures multiset(a[..]) == old(multiset(a[..]))
    ensures forall k :: WithKey(a[..], key, k) == WithKey(old(a[..]), key, k)
    ensures NonIncreasing(old(a[..]), key) ==> a[..] == old(a[..])
  {
    ghost var o := a[..];
    var i := 0;
    while i < a.Length
      invariant 0 <= i <= a.Length
      invariant a[..i] == InsertionSort(o[..i], key)
      invariant a[i..] == o[i..]
    {
      InsertAt(a, i, key);
      assert o[..i + 1][..i] == o[..i];
      i := i + 1;
    }
    assert a[..] == a[..a.Length] && o == o[..a.Length];
    InsertionSortOrders(o, key);
    InsertionSortPermutes(o, key);
    forall k ensures WithKey(a[..], key, k) == WithKey(o, key, k) {
      SortIsStable(o, key, k);
    }
    if NonIncreasing(o, key) {
      InsertionSortKeepsOrdered(o, key);
    }
  }

  /** Moves `a[i]` down past every strictly smaller key before it. */
  method InsertAt<T>(a: array<T>, i: int, key: T -> real)
    requires 0 <= i < a.Length
    modifies a
    ensures a[..i + 1] == InsertLast(old(a[..i]), old(a[i]), key)
    ensures a[i + 1..] == old(a[i + 1..])
  {
    ghost var s := a[..i];
    ghost var x := a[i];
    ghost var rest := a[i + 1..];
    assert s[..i] == s && s[i..] == [];
    assert a[..] == s[..i] + [x] + s[i..] + rest;
    var j := i;
    while j > 0 && key(a[j - 1]) < key(a[j])
      invariant 0 <= j <= i
      invariant a[..] == s[..j] + [x] + s[j..] + rest
      invariant InsertLast(s, x, key) == InsertLast(s[..j], x, key) + s[j..]
    {
      assert a[j - 1] == s[j - 1] && a[j] == x;
      SwapDown(a, j);
      SwapStep(s, x, rest, j);
      InsertLastStep(s, x, key, j);
      j := j - 1;
    }
    assert a[j] == x;
    if j > 0 {
      assert a[j - 1] == s[j - 1];
      assert s[..j][j - 1] == s[j - 1];
    }
    assert a[..i + 1] == s[..j] + [x] + s[j..];
  }

  lemma SwapStep<T>(s: seq<T>, x: T, rest: seq<T>, j: int)
    requires 0 < j <= |s|
    ensures (s[..j] + [x] + s[j..] + rest)[j - 1 := x][j := s[j - 1]] == s[..j - 1] + [x] + s[j - 1..] + rest
  {
    var l := (s[..j] + [x] + s[j..] + rest)[j - 1 := x][j := s[j - 1]];
    var r := s[..j - 1] + [x] + s[j - 1..] + rest;
    assert |l| == |r|;
    forall p | 0 <= p < |l| ensures l[p] == r[p] {
      if p < j - 1 {
      } else if p == j - 1 {
      } else if p == j {
      } else if p <= |s| {
      } else {
      }
    }
  }

  lemma InsertLastStep<T>(s: seq<T>, x: T, key: T -> real, j: int)
    requires 0 < j <= |s| && key(s[j - 1]) < key(x)
    requires InsertLast(s, x, key) == InsertLast(s[..j], x, key) + s[j..]
    ensures InsertLast(s, x, key) == InsertLast(s[..j - 1], x, key) + s[j - 1..]
  {
    assert s[..j][..j - 1] == s[..j - 1];
    assert [s[j - 1]] + s[j..] == s[j - 1..];
  }
}
