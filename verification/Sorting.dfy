/** Strictly sorted sequences under a comparator, and what a stable sort of a falling list is. */
module Sorting {
  import opened Heaps

  /** Each element comes strictly before all later ones. */
  ghost predicate Sorted<T>(cmp: (T, T) -> int, s: seq<T>) {
    forall i, j :: 0 <= i < j < |s| ==> cmp(s[i], s[j]) > 0
  }

  lemma SortedSameHead<T(!new)>(cmp: (T, T) -> int, s: seq<T>, t: seq<T>)
    requires IsOrdering(cmp) && Sorted(cmp, s) && Sorted(cmp, t)
    requires s != [] && multiset(s) == multiset(t)
    ensures t != [] && s[0] == t[0]
  {
    assert s[0] in multiset(s);
    var j :| 0 <= j < |t| && t[j] == s[0];
    assert t[0] in multiset(t);
    var i :| 0 <= i < |s| && s[i] == t[0];
    assert !(i > 0 && j > 0);
  }

  /** There is at most one sorted sequence with given elements. */
  lemma {:induction false} SortedIsUnique<T(!new)>(cmp: (T, T) -> int, s: seq<T>, t: seq<T>)
    requires IsOrdering(cmp) && Sorted(cmp, s) && Sorted(cmp, t)
    requires multiset(s) == multiset(t)
    ensures s == t
    decreases |s|
  {
    if s == [] {
      assert |multiset(t)| == |t|;
    } else {
      SortedSameHead(cmp, s, t);
      assert s == [s[0]] + s[1..];
      assert t == [t[0]] + t[1..];
      assert multiset(s[1..]) == multiset(s) - multiset{s[0]};
      assert multiset(t[1..]) == multiset(t) - multiset{t[0]};
      SortedIsUnique(cmp, s[1..], t[1..]);
    }
  }

  // ---------- stable sort by falling time value ----------

  /** The elements with one key, in their order. */
  function WithKey<T>(s: seq<T>, key: T -> int, k: int): seq<T> {
    if s == [] then []
    else (if key(s[0]) == k then [s[0]] else []) + WithKey(s[1..], key, k)
  }

  ghost predicate Falling<T>(s: seq<T>, key: T -> int) {
    forall i, j :: 0 <= i < j < |s| ==> key(s[i]) >= key(s[j])
  }

  /** `r` is a stable sort of `s`: falling, and equal keys keep their order (so nothing is lost or added). */
  ghost predicate IsStableSort<T>(s: seq<T>, r: seq<T>, key: T -> int) {
    && Falling(r, key)
    && forall k :: WithKey(r, key, k) == WithKey(s, key, k)
  }

  lemma {:induction false} WithKeyEmpty<T>(s: seq<T>, key: T -> int, k: int)
    ensures WithKey(s, key, k) == [] <==> forall i :: 0 <= i < |s| ==> key(s[i]) != k
  {
    if s != [] {
      WithKeyEmpty(s[1..], key, k);
      assert forall i :: 0 <= i < |s[1..]| ==> s[1..][i] == s[i + 1];
      assert forall i :: 0 < i < |s| ==> s[i] == s[1..][i - 1];
    }
  }

  lemma WithKeyHead<T>(s: seq<T>, key: T -> int)
    requires s != []
    ensures WithKey(s, key, key(s[0])) == [s[0]] + WithKey(s[1..], key, key(s[0]))
    ensures forall k :: k != key(s[0]) ==> WithKey(s, key, k) == WithKey(s[1..], key, k)
  {
  }

  /** The greatest key comes first in both, so both start with the same element. */
  lemma SameHead<T>(s: seq<T>, r: seq<T>, key: T -> int)
    requires s != [] && Falling(s, key) && IsStableSort(s, r, key)
    ensures r != [] && r[0] == s[0]
  {
    var k := key(s[0]);
    WithKeyHead(s, key);
    assert WithKey(r, key, k) == WithKey(s, key, k);
    WithKeyEmpty(r, key, k);
    var i :| 0 <= i < |r| && key(r[i]) == k;
    var j := key(r[0]);
    WithKeyHead(r, key);
    assert WithKey(s, key, j) == WithKey(r, key, j);
    WithKeyEmpty(s, key, j);
    var m :| 0 <= m < |s| && key(s[m]) == j;
    assert j >= k && k >= j;
    assert WithKey(r, key, k)[0] == r[0] && WithKey(s, key, k)[0] == s[0];
  }

  /** Sorting a list that already falls changes nothing. */
  lemma {:induction false} SortOfFalling<T>(s: seq<T>, r: seq<T>, key: T -> int)
    requires Falling(s, key) && IsStableSort(s, r, key)
    ensures r == s
    decreases |s|
  {
    if s == [] {
      assert r == [] || WithKey(r, key, key(r[0])) == WithKey(s, key, key(r[0]));
    } else {
      SameHead(s, r, key);
      WithKeyHead(s, key);
      WithKeyHead(r, key);
      forall k
        ensures WithKey(r[1..], key, k) == WithKey(s[1..], key, k)
      {
        assert WithKey(r, key, k) == WithKey(s, key, k);
        if k == key(s[0]) {
          assert WithKey(r[1..], key, k) == WithKey(r, key, k)[1..];
          assert WithKey(s[1..], key, k) == WithKey(s, key, k)[1..];
        }
      }
      SortOfFalling(s[1..], r[1..], key);
    }
  }

  /** Insertion below every element whose key is at least as great. */
  function Insert<T>(x: T, s: seq<T>, key: T -> int): seq<T> {
    if s == [] || key(s[0]) < key(x) then [x] + s else [s[0]] + Insert(x, s[1..], key)
  }

  /** A stable sort, last element inserted last. */
  function StableSort<T>(s: seq<T>, key: T -> int): seq<T> {
    if s == [] then [] else Insert(s[|s| - 1], StableSort(s[..|s| - 1], key), key)
  }

  lemma {:induction false} InsertMembers<T>(x: T, s: seq<T>, key: T -> int)
    ensures forall y :: y in Insert(x, s, key) ==> y == x || y in s
  {
    if s != [] && key(s[0]) >= key(x) {
      InsertMembers(x, s[1..], key);
    }
  }

  lemma FallingCons<T>(x: T, s: seq<T>, key: T -> int)
    requires Falling(s, key) && forall y :: y in s ==> key(x) >= key(y)
    ensures Falling([x] + s, key)
  {
  }

  lemma FallingTail<T>(s: seq<T>, key: T -> int)
    requires Falling(s, key) && s != []
    ensures Falling(s[1..], key) && forall y :: y in s[1..] ==> key(s[0]) >= key(y)
  {
  }

  lemma {:induction false} InsertFalls<T>(x: T, s: seq<T>, key: T -> int)
    requires Falling(s, key)
    ensures Falling(Insert(x, s, key), key)
  {
    hide Falling;
    if s == [] {
      assert Insert(x, s, key) == [x];
      FallingOne(x, key);
    } else {
      FallingTail(s, key);
      assert forall y :: y in s ==> y == s[0] || y in s[1..];
      if key(s[0]) < key(x) {
        FallingCons(x, s, key);
      } else {
        InsertFalls(x, s[1..], key);
        InsertMembers(x, s[1..], key);
        FallingCons(s[0], Insert(x, s[1..], key), key);
      }
    }
  }

  lemma FallingOne<T>(x: T, key: T -> int)
    ensures Falling([x], key)
  {
  }

  lemma {:induction false} InsertKeepsKeys<T>(x: T, s: seq<T>, key: T -> int, k: int)
    requires Falling(s, key)
    ensures WithKey(Insert(x, s, key), key, k) == WithKey(s, key, k) + if key(x) == k then [x] else []
  {
    var r := Insert(x, s, key);
    if s == [] || key(s[0]) < key(x) {
      assert r[1..] == s;
      WithKeyHead(r, key);
      WithKeyEmpty(s, key, key(x));
    } else {
      FallingTail(s, key);
      InsertKeepsKeys(x, s[1..], key, k);
      assert r[1..] == Insert(x, s[1..], key);
      WithKeyHead(s, key);
      WithKeyHead(r, key);
    }
  }

  lemma {:induction false} WithKeySnoc<T>(s: seq<T>, x: T, key: T -> int, k: int)
    ensures WithKey(s + [x], key, k) == WithKey(s, key, k) + if key(x) == k then [x] else []
  {
    if s != [] {
      assert (s + [x])[1..] == s[1..] + [x];
      WithKeySnoc(s[1..], x, key, k);
    }
  }

  lemma {:induction false} StableSortIsStable<T>(s: seq<T>, key: T -> int)
    ensures IsStableSort(s, StableSort(s, key), key)
  {
    if s != [] {
      var front, x := s[..|s| - 1], s[|s| - 1];
      StableSortIsStable(front, key);
      forall k
        ensures WithKey(StableSort(s, key), key, k) == WithKey(s, key, k)
      {
        InsertKeepsKeys(x, StableSort(front, key), key, k);
        WithKeySnoc(front, x, key, k);
        assert front + [x] == s;
      }
      InsertFalls(x, StableSort(front, key), key);
    }
  }
}
