/** `Array.prototype.sort` with a numeric comparator, as the dashboard uses it
    for both the chart legend and the metrics table. Since ES2019 the sort is
    stable, so for a consistent comparator its result is the unique stable
    ordering; it is modelled here by a stable insertion sort. A key is
    `None` when the source's value is not finite: the comparator's difference
    is then NaN, and `NaN < 0` is false, so such an element is never placed
    before another. */
module StableSort {
  import opened Wrappers

  datatype Direction = Asc | Desc

  /** The comparator says `a` goes strictly before `b`:
      `b - a < 0` for descending, `a - b < 0` for ascending. */
  predicate Precedes(ka: Option<real>, kb: Option<real>, dir: Direction) {
    ka.Some? && kb.Some? && (if dir == Desc then kb.value - ka.value < 0.0 else ka.value - kb.value < 0.0)
  }

  /** Every key is a finite number. */
  predicate Finite<T>(s: seq<T>, key: T -> Option<real>) {
    forall i :: 0 <= i < |s| ==> key(s[i]).Some?
  }

  /** No element is out of order with respect to a later one. */
  predicate Sorted<T>(s: seq<T>, key: T -> Option<real>, dir: Direction) {
    forall i, j :: 0 <= i < j < |s| ==> !Precedes(key(s[j]), key(s[i]), dir)
  }

  /** The elements whose key is `k`, in order. A sort is stable when this
      subsequence is the same before and after sorting, for every `k`. */
  function WithKey<T>(s: seq<T>, key: T -> Option<real>, k: Option<real>): seq<T> {
    if s == [] then []
    else (if key(s[0]) == k then [s[0]] else []) + WithKey(s[1..], key, k)
  }

  /** Places `x` before the first element it precedes, so after every
      element it does not precede (in particular every equal one). */
  function Insert<T>(r: seq<T>, x: T, key: T -> Option<real>, dir: Direction): seq<T> {
    if r == [] then [x]
    else if Precedes(key(x), key(r[0]), dir) then [x] + r
    else [r[0]] + Insert(r[1..], x, key, dir)
  }

  /** Inserting adds exactly the one element. */
  lemma {:induction false} InsertPermutes<T>(r: seq<T>, x: T, key: T -> Option<real>, dir: Direction)
    ensures multiset(Insert(r, x, key, dir)) == multiset(r) + multiset{x}
  {
    if r != [] && !Precedes(key(x), key(r[0]), dir) {
      InsertPermutes(r[1..], x, key, dir);
      assert r == [r[0]] + r[1..];
    }
  }

  /** The stable sort: a permutation of the input (see SortSorted and
      SortStable for the order). */
  function Sort<T>(s: seq<T>, key: T -> Option<real>, dir: Direction): (r: seq<T>)
    ensures multiset(r) == multiset(s)
  {
    if s == [] then []
    else
      assert s == s[..|s| - 1] + [s[|s| - 1]];
      InsertPermutes(Sort(s[..|s| - 1], key, dir), s[|s| - 1], key, dir);
      Insert(Sort(s[..|s| - 1], key, dir), s[|s| - 1], key, dir)
  }

  lemma FiniteOfPermutation<T>(a: seq<T>, b: seq<T>, key: T -> Option<real>)
    requires multiset(a) == multiset(b) && Finite(b, key)
    ensures Finite(a, key)
  {
    forall i | 0 <= i < |a|
      ensures key(a[i]).Some?
    {
      assert a[i] in multiset(b);
    }
  }

  lemma {:induction false} InsertSorted<T>(r: seq<T>, x: T, key: T -> Option<real>, dir: Direction)
    requires Sorted(r, key, dir) && Finite(r, key) && key(x).Some?
    ensures Sorted(Insert(r, x, key, dir), key, dir)
  {
    if r != [] && !Precedes(key(x), key(r[0]), dir) {
      var tail := Insert(r[1..], x, key, dir);
      InsertSorted(r[1..], x, key, dir);
      InsertPermutes(r[1..], x, key, dir);
      forall j | 0 <= j < |tail|
        ensures !Precedes(key(tail[j]), key(r[0]), dir)
      {
        assert tail[j] in multiset(r[1..]) + multiset{x};
        if tail[j] != x {
          assert tail[j] in r[1..];
        }
      }
    }
  }

  /** With finite keys the result is in the comparator's order. */
  lemma {:induction false} SortSorted<T>(s: seq<T>, key: T -> Option<real>, dir: Direction)
    requires Finite(s, key)
    ensures Sorted(Sort(s, key, dir), key, dir)
  {
    if s != [] {
      var init := s[..|s| - 1];
      SortSorted(init, key, dir);
      FiniteOfPermutation(Sort(init, key, dir), init, key);
      InsertSorted(Sort(init, key, dir), s[|s| - 1], key, dir);
    }
  }

  lemma {:induction false} WithKeyAppend<T>(a: seq<T>, b: seq<T>, key: T -> Option<real>, k: Option<real>)
    ensures WithKey(a + b, key, k) == WithKey(a, key, k) + WithKey(b, key, k)
  {
    if a == [] {
      assert a + b == b;
    } else {
      var head := if key(a[0]) == k then [a[0]] else [];
      assert WithKey(a + b, key, k) == head + WithKey(a[1..] + b, key, k) by {
        assert (a + b)[0] == a[0] && (a + b)[1..] == a[1..] + b;
      }
      WithKeyAppend(a[1..], b, key, k);
      assert head + (WithKey(a[1..], key, k) + WithKey(b, key, k))
          == (head + WithKey(a[1..], key, k)) + WithKey(b, key, k);
    }
  }

  lemma {:induction false} WithKeyNone<T>(s: seq<T>, key: T -> Option<real>, k: Option<real>)
    requires forall i :: 0 <= i < |s| ==> key(s[i]) != k
    ensures WithKey(s, key, k) == []
  {
    if s != [] {
      WithKeyNone(s[1..], key, k);
    }
  }

  lemma SortedTail<T>(r: seq<T>, key: T -> Option<real>, dir: Direction)
    requires r != [] && Sorted(r, key, dir) && Finite(r, key)
    ensures Sorted(r[1..], key, dir) && Finite(r[1..], key)
  {
    forall i, j | 0 <= i < j < |r| - 1
      ensures !Precedes(key(r[1..][j]), key(r[1..][i]), dir)
    {
      assert r[1..][j] == r[j + 1] && r[1..][i] == r[i + 1];
    }
  }

  /** An element that precedes the head of a sorted sequence has a key
      different from every key in it. */
  lemma PrecedesHeadNoEqualKey<T>(r: seq<T>, x: T, key: T -> Option<real>, dir: Direction)
    requires r != [] && Sorted(r, key, dir) && Precedes(key(x), key(r[0]), dir)
    ensures forall i :: 0 <= i < |r| ==> key(r[i]) != key(x)
  {
    forall i | 0 <= i < |r|
      ensures key(r[i]) != key(x)
    {
      if i > 0 {
        assert !Precedes(key(r[i]), key(r[0]), dir);
      }
    }
  }

  lemma {:induction false} InsertStable<T>(r: seq<T>, x: T, key: T -> Option<real>, dir: Direction, k: Option<real>)
    requires Sorted(r, key, dir) && Finite(r, key) && key(x).Some?
    ensures WithKey(Insert(r, x, key, dir), key, k) == WithKey(r, key, k) + WithKey([x], key, k)
  {
    if r == [] {
    } else if Precedes(key(x), key(r[0]), dir) {
      InsertStableFront(r, x, key, dir, k);
    } else {
      SortedTail(r, key, dir);
      InsertStable(r[1..], x, key, dir, k);
      InsertStableStep(r, x, key, dir, k);
    }
  }

  /** The case where the new element goes after the head. */
  lemma InsertStableStep<T>(r: seq<T>, x: T, key: T -> Option<real>, dir: Direction, k: Option<real>)
    requires r != [] && !Precedes(key(x), key(r[0]), dir)
    requires WithKey(Insert(r[1..], x, key, dir), key, k) == WithKey(r[1..], key, k) + WithKey([x], key, k)
    ensures WithKey(Insert(r, x, key, dir), key, k) == WithKey(r, key, k) + WithKey([x], key, k)
  {
    var tail := Insert(r[1..], x, key, dir);
    var head, rest, added := WithKey([r[0]], key, k), WithKey(r[1..], key, k), WithKey([x], key, k);
    InsertAfterHead(r, x, key, dir);
    WithKeyAppend([r[0]], tail, key, k);
    WithKeyAppend([r[0]], r[1..], key, k);
    assert [r[0]] + r[1..] == r;
    assert head + (rest + added) == (head + rest) + added;
  }

  lemma InsertAfterHead<T>(r: seq<T>, x: T, key: T -> Option<real>, dir: Direction)
    requires r != [] && !Precedes(key(x), key(r[0]), dir)
    ensures Insert(r, x, key, dir) == [r[0]] + Insert(r[1..], x, key, dir)
  {
  }

  /** The case where the new element goes first. */
  lemma InsertStableFront<T>(r: seq<T>, x: T, key: T -> Option<real>, dir: Direction, k: Option<real>)
    requires r != [] && Sorted(r, key, dir) && Precedes(key(x), key(r[0]), dir)
    ensures WithKey([x] + r, key, k) == WithKey(r, key, k) + WithKey([x], key, k)
  {
    WithKeyAppend([x], r, key, k);
    if key(x) == k {
      PrecedesHeadNoEqualKey(r, x, key, dir);
      WithKeyNone(r, key, k);
    } else {
      assert WithKey([x], key, k) == [];
    }
  }

  /** With finite keys, elements with equal keys keep their input order. */
  lemma {:induction false} SortStable<T>(s: seq<T>, key: T -> Option<real>, dir: Direction, k: Option<real>)
    requires Finite(s, key)
    ensures WithKey(Sort(s, key, dir), key, k) == WithKey(s, key, k)
  {
    if s != [] {
      var init, last := s[..|s| - 1], s[|s| - 1];
      SortStable(init, key, dir, k);
      SortSorted(init, key, dir);
      FiniteOfPermutation(Sort(init, key, dir), init, key);
      InsertStable(Sort(init, key, dir), last, key, dir, k);
      WithKeyAppend(init, [last], key, k);
      assert init + [last] == s;
    }
  }

  lemma {:induction false} InsertAtEnd<T>(r: seq<T>, x: T, key: T -> Option<real>, dir: Direction)
    requires forall i :: 0 <= i < |r| ==> !Precedes(key(x), key(r[i]), dir)
    ensures Insert(r, x, key, dir) == r + [x]
  {
    if r != [] {
      InsertAtEnd(r[1..], x, key, dir);
      assert r == [r[0]] + r[1..];
    }
  }

  /** Sorting an already sorted sequence changes nothing; in particular
      sorting twice is the same as sorting once. */
  lemma {:induction false} SortOfSorted<T>(s: seq<T>, key: T -> Option<real>, dir: Direction)
    requires Sorted(s, key, dir)
    ensures Sort(s, key, dir) == s
  {
    if s != [] {
      var init, last := s[..|s| - 1], s[|s| - 1];
      SortOfSorted(init, key, dir);
      InsertAtEnd(init, last, key, dir);
      assert init + [last] == s;
    }
  }

  lemma SortIdempotent<T>(s: seq<T>, key: T -> Option<real>, dir: Direction)
    requires Finite(s, key)
    ensures Sort(Sort(s, key, dir), key, dir) == Sort(s, key, dir)
  {
    SortSorted(s, key, dir);
    SortOfSorted(Sort(s, key, dir), key, dir);
  }
}
