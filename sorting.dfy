/** The stable sort behind `Array.prototype.sort` with a numeric comparator
    (`(a, b) => key(a) - key(b)`). A descending comparator `b - a` is the same sort
    on the negated key. */
module Sorting {
  import opened Seqs

  ghost predicate SortedBy<T>(s: seq<T>, key: T -> int) {
    forall i, j :: 0 <= i < j < |s| ==> key(s[i]) <= key(s[j])
  }

  /** Inserts `x` after every element of `t` whose key is at most `key(x)`, scanning
      from the end: exactly where one pass of insertion sort leaves it. */
  function Insert<T>(t: seq<T>, x: T, key: T -> int): (r: seq<T>)
    ensures |r| == |t| + 1
  {
    if t == [] || key(t[|t| - 1]) <= key(x) then t + [x]
    else Insert(t[..|t| - 1], x, key) + [t[|t| - 1]]
  }

  /** Insertion sort: sorts all but the last element, then inserts the last one. */
  function SortBy<T>(s: seq<T>, key: T -> int): (r: seq<T>)
    ensures |r| == |s|
  {
    if s == [] then [] else Insert(SortBy(s[..|s| - 1], key), s[|s| - 1], key)
  }

  lemma {:induction false} InsertPermutation<T>(t: seq<T>, x: T, key: T -> int)
    ensures multiset(Insert(t, x, key)) == multiset(t) + multiset{x}
  {
    if t != [] && key(t[|t| - 1]) > key(x) {
      var init, last := t[..|t| - 1], t[|t| - 1];
      assert t == init + [last];
      InsertPermutation(init, x, key);
    }
  }

  /** No element of `s` has a key above `b`. */
  ghost predicate AllAtMost<T>(s: seq<T>, key: T -> int, b: int) {
    forall k :: 0 <= k < |s| ==> key(s[k]) <= b
  }

  lemma {:induction false} InsertAtMost<T>(t: seq<T>, x: T, key: T -> int, b: int)
    requires AllAtMost(t, key, b) && key(x) <= b
    ensures AllAtMost(Insert(t, x, key), key, b)
  {
    if t != [] && key(t[|t| - 1]) > key(x) {
      var init := t[..|t| - 1];
      assert AllAtMost(init, key, b);
      InsertAtMost(init, x, key, b);
      assert Insert(t, x, key) == Insert(init, x, key) + [t[|t| - 1]];
    } else {
      assert Insert(t, x, key) == t + [x];
    }
  }

  lemma SortedAppend<T>(a: seq<T>, y: T, key: T -> int)
    requires SortedBy(a, key) && AllAtMost(a, key, key(y))
    ensures SortedBy(a + [y], key)
  {
  }

  lemma {:induction false} InsertSorted<T>(t: seq<T>, x: T, key: T -> int)
    requires SortedBy(t, key)
    ensures SortedBy(Insert(t, x, key), key)
  {
    if t == [] || key(t[|t| - 1]) <= key(x) {
      assert AllAtMost(t, key, key(x));
      SortedAppend(t, x, key);
    } else {
      var init, last := t[..|t| - 1], t[|t| - 1];
      assert SortedBy(init, key);
      assert AllAtMost(init, key, key(last));
      InsertSorted(init, x, key);
      InsertAtMost(init, x, key, key(last));
      SortedAppend(Insert(init, x, key), last, key);
    }
  }

  /** The sort only reorders: the result is a permutation of the input. */
  lemma {:induction false} SortByPermutation<T>(s: seq<T>, key: T -> int)
    ensures multiset(SortBy(s, key)) == multiset(s)
  {
    if s != [] {
      var init, last := s[..|s| - 1], s[|s| - 1];
      assert s == init + [last];
      SortByPermutation(init, key);
      InsertPermutation(SortBy(init, key), last, key);
    }
  }

  /** The result is in non-decreasing key order. */
  lemma {:induction false} SortBySorted<T>(s: seq<T>, key: T -> int)
    ensures SortedBy(SortBy(s, key), key)
  {
    if s != [] {
      SortBySorted(s[..|s| - 1], key);
      InsertSorted(SortBy(s[..|s| - 1], key), s[|s| - 1], key);
    }
  }

  /** Filtering a sorted list leaves it sorted. */
  lemma {:induction false} FilterSorted<T>(s: seq<T>, p: T -> bool, key: T -> int)
    requires SortedBy(s, key)
    ensures SortedBy(Filter(s, p), key)
  {
    if s != [] {
      assert SortedBy(s[1..], key);
      FilterSorted(s[1..], p, key);
      var rest := Filter(s[1..], p);
      FilterMembers(s[1..], p);
      assert forall i :: 0 <= i < |rest| ==> key(s[0]) <= key(rest[i]);
      assert Filter(s, p) == (if p(s[0]) then [s[0]] else []) + rest;
    }
  }

  /** The elements of one key value, `x => key(x) == k`. */
  function KeyIs<T>(key: T -> int, k: int): T -> bool {
    x => key(x) == k
  }

  lemma {:induction false} InsertStable<T>(t: seq<T>, x: T, key: T -> int, k: int)
    ensures Filter(Insert(t, x, key), KeyIs(key, k)) == Filter(t + [x], KeyIs(key, k))
  {
    var p := KeyIs(key, k);
    if t == [] || key(t[|t| - 1]) <= key(x) {
    } else {
      var init, last := t[..|t| - 1], t[|t| - 1];
      var ins := Insert(init, x, key);
      assert t == init + [last];
      assert Insert(t, x, key) == ins + [last];
      InsertStable(init, x, key, k);
      FilterAppend(ins, [last], p);
      FilterAppend(init, [x], p);
      FilterAppend(init, [last], p);
      FilterAppend(t, [x], p);
      if p(last) {
        // key(x) < key(last) == k, so x is not kept
        assert Filter([x], p) == [];
        assert Filter(ins, p) == Filter(init, p);
        assert Filter(t + [x], p) == Filter(t, p);
      } else {
        assert Filter([last], p) == [];
        assert Filter(t, p) == Filter(init, p);
        assert Filter(ins + [last], p) == Filter(ins, p);
      }
    }
  }

  /** Stability: for every key value, the elements with that key appear in the sorted
      result in exactly the order they had in the input. */
  lemma {:induction false} SortByStable<T>(s: seq<T>, key: T -> int, k: int)
    ensures Filter(SortBy(s, key), KeyIs(key, k)) == Filter(s, KeyIs(key, k))
  {
    if s != [] {
      var init, last := s[..|s| - 1], s[|s| - 1];
      assert s == init + [last];
      SortByStable(init, key, k);
      InsertStable(SortBy(init, key), last, key, k);
      FilterAppend(SortBy(init, key), [last], KeyIs(key, k));
      FilterAppend(init, [last], KeyIs(key, k));
    }
  }

  lemma InsertPastLarger<T>(p: seq<T>, y: T, x: T, key: T -> int)
    requires key(y) > key(x)
    ensures Insert(p + [y], x, key) == Insert(p, x, key) + [y]
  {
    assert (p + [y])[..|p|] == p;
  }

  lemma InsertAfterSmaller<T>(p: seq<T>, x: T, key: T -> int)
    requires p == [] || key(p[|p| - 1]) <= key(x)
    ensures Insert(p, x, key) == p + [x]
  {
  }

  /** Sorts `a` in place by insertion, as `sort` does to the copy it is given. */
  method SortInPlace<T>(a: array<T>, key: T -> int)
    modifies a
    ensures a[..] == SortBy(old(a[..]), key)
  {
    ghost var s := a[..];
    for i := 0 to a.Length
      invariant a[..i] == SortBy(s[..i], key)
      invariant a[i..] == s[i..]
    {
      assert s[..i + 1][..i] == s[..i];
      InsertLast(a, i, key);
    }
    assert s[..a.Length] == s;
  }

  /** The state of one insertion pass over `c`, with the element `x` now at index `j`:
      removing it leaves the original prefix `t`, and inserting it into what lies before
      it finishes the pass. */
  ghost predicate PassState<T>(c: seq<T>, j: nat, i: nat, t: seq<T>, x: T, key: T -> int) {
    j <= i < |c| && c[j] == x
    && c[..j] + c[j + 1..i + 1] == t
    && Insert(t, x, key) == Insert(c[..j], x, key) + c[j + 1..i + 1]
  }

  lemma PassStep<T>(c: seq<T>, j: nat, i: nat, t: seq<T>, x: T, key: T -> int)
    requires PassState(c, j, i, t, x, key) && 0 < j && key(c[j - 1]) > key(x)
    ensures PassState(c[j - 1 := c[j]][j := c[j - 1]], j - 1, i, t, x, key)
  {
    var c' := c[j - 1 := c[j]][j := c[j - 1]];
    var p, y, q := c[..j - 1], c[j - 1], c[j + 1..i + 1];
    assert c[..j] == p + [y];
    InsertPastLarger(p, y, x, key);
    assert c'[..j - 1] == p;
    assert c'[j..i + 1] == [y] + q;
  }

  lemma PassEnd<T>(c: seq<T>, j: nat, i: nat, t: seq<T>, x: T, key: T -> int)
    requires PassState(c, j, i, t, x, key) && (j == 0 || key(c[j - 1]) <= key(x))
    ensures c[..i + 1] == Insert(t, x, key)
  {
    InsertAfterSmaller(c[..j], x, key);
    assert c[..i + 1] == c[..j] + [x] + c[j + 1..i + 1];
  }

  /** One pass of insertion sort: moves `a[i]` down into the sorted prefix `a[..i]`. */
  method InsertLast<T>(a: array<T>, i: nat, key: T -> int)
    requires i < a.Length
    modifies a
    ensures a[..i + 1] == Insert(old(a[..i]), old(a[i]), key)
    ensures a[i + 1..] == old(a[i + 1..])
  {
    ghost var t := a[..i];
    ghost var x := a[i];
    var j := i;
    assert a[..][..i] + a[..][i + 1..i + 1] == t;
    while j > 0 && key(a[j - 1]) > key(a[j])
      invariant 0 <= j <= i
      invariant PassState(a[..], j, i, t, x, key)
      invariant a[i + 1..] == old(a[i + 1..])
    {
      PassStep(a[..], j, i, t, x, key);
      a[j - 1], a[j] := a[j], a[j - 1];
      j := j - 1;
    }
    PassEnd(a[..], j, i, t, x, key);
  }
}
