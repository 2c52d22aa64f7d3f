/** The binary max-heap of the merges, over any comparator that orders its elements. */
module Heaps {

  /** Names the three elements of a transitivity step. */
  ghost predicate Link<T>(a: T, b: T, c: T) { true }

  /** `cmp(a, b) >= 0` says that `a` comes no later than `b`. */
  ghost predicate IsOrdering<T(!new)>(cmp: (T, T) -> int) {
    && (forall a, b {:trigger cmp(a, b)} :: cmp(a, b) <= 0 <==> cmp(b, a) >= 0)
    && (forall a, b, c {:trigger Link(a, b, c)} ::
          Link(a, b, c) && cmp(a, b) >= 0 && cmp(b, c) >= 0 ==> cmp(a, c) >= 0)
  }

  lemma Through<T(!new)>(cmp: (T, T) -> int, a: T, b: T, c: T)
    requires IsOrdering(cmp) && cmp(a, b) >= 0 && cmp(b, c) >= 0
    ensures cmp(a, c) >= 0
    ensures cmp(a, b) > 0 || cmp(b, c) > 0 ==> cmp(a, c) > 0
  {
    assert Link(a, b, c) && Link(b, c, a) && Link(c, a, b);
  }

  function Parent(i: int): int {
    (i - 1) / 2
  }

  /** Every element except possibly the one at `hole` comes no earlier than its parent. */
  ghost predicate OrderedExceptAbove<T>(cmp: (T, T) -> int, s: seq<T>, hole: int) {
    forall j :: 0 < j < |s| && j != hole ==> cmp(s[Parent(j)], s[j]) >= 0
  }

  /** Every element except possibly the children of `hole` comes no earlier than its parent. */
  ghost predicate OrderedExceptBelow<T>(cmp: (T, T) -> int, s: seq<T>, hole: int) {
    forall j :: 0 < j < |s| && Parent(j) != hole ==> cmp(s[Parent(j)], s[j]) >= 0
  }

  /** The children of `hole` come no earlier than its parent. */
  ghost predicate GrandchildrenOrdered<T>(cmp: (T, T) -> int, s: seq<T>, hole: int) {
    forall j :: 0 < j < |s| && Parent(j) == hole && 0 < hole < |s| ==> cmp(s[Parent(hole)], s[j]) >= 0
  }

  ghost predicate IsHeap<T>(cmp: (T, T) -> int, s: seq<T>) {
    forall j :: 0 < j < |s| ==> cmp(s[Parent(j)], s[j]) >= 0
  }

  lemma {:induction false} RootComesFirst<T(!new)>(cmp: (T, T) -> int, s: seq<T>, j: int)
    requires IsOrdering(cmp) && IsHeap(cmp, s) && 0 <= j < |s|
    ensures cmp(s[0], s[j]) >= 0
    decreases j
  {
    if j > 0 {
      RootComesFirst(cmp, s, Parent(j));
      Through(cmp, s[0], s[Parent(j)], s[j]);
    }
  }

  function Swap<T>(s: seq<T>, i: int, j: int): (r: seq<T>)
    requires 0 <= i < |s| && 0 <= j < |s|
    ensures |r| == |s| && r[i] == s[j] && r[j] == s[i]
    ensures forall k :: 0 <= k < |s| && k != i && k != j ==> r[k] == s[k]
    ensures multiset(r) == multiset(s)
  {
    s[i := s[j]][j := s[i]]
  }

  /** Lifting an element that comes before its parent. */
  lemma SwapUp<T(!new)>(cmp: (T, T) -> int, s: seq<T>, i: int)
    requires IsOrdering(cmp) && 0 < i < |s|
    requires OrderedExceptAbove(cmp, s, i) && GrandchildrenOrdered(cmp, s, i)
    requires cmp(s[Parent(i)], s[i]) < 0
    ensures OrderedExceptAbove(cmp, Swap(s, Parent(i), i), Parent(i))
    ensures GrandchildrenOrdered(cmp, Swap(s, Parent(i), i), Parent(i))
  {
    var p := Parent(i);
    var t := Swap(s, p, i);
    forall j | 0 < j < |t| && j != p
      ensures cmp(t[Parent(j)], t[j]) >= 0
    {
      if Parent(j) == p && j != i {
        Through(cmp, s[i], s[p], s[j]);
      }
    }
    forall j | 0 < j < |t| && Parent(j) == p && 0 < p
      ensures cmp(t[Parent(p)], t[j]) >= 0
    {
      if j != i {
        Through(cmp, s[Parent(p)], s[p], s[j]);
      }
    }
  }

  /** Sinking an element below the earlier of its children. */
  lemma SwapDown<T(!new)>(cmp: (T, T) -> int, s: seq<T>, i: int, m: int)
    requires IsOrdering(cmp) && 0 <= i < m < |s| && Parent(m) == i
    requires OrderedExceptBelow(cmp, s, i) && GrandchildrenOrdered(cmp, s, i)
    requires cmp(s[m], s[i]) > 0
    requires forall j :: 0 < j < |s| && Parent(j) == i ==> cmp(s[m], s[j]) >= 0
    ensures OrderedExceptBelow(cmp, Swap(s, i, m), m)
    ensures GrandchildrenOrdered(cmp, Swap(s, i, m), m)
  {
  }

  lemma RootIsFirst<T(!new)>(cmp: (T, T) -> int, s: seq<T>)
    requires IsOrdering(cmp) && IsHeap(cmp, s) && s != []
    ensures forall x :: x in multiset(s) ==> cmp(s[0], x) >= 0
  {
    forall x | x in multiset(s)
      ensures cmp(s[0], x) >= 0
    {
      var j :| 0 <= j < |s| && s[j] == x;
      RootComesFirst(cmp, s, j);
    }
  }

  /** The root taken away and the last element put in its place. */
  lemma ReplaceRoot<T(!new)>(cmp: (T, T) -> int, s: seq<T>)
    requires IsOrdering(cmp) && IsHeap(cmp, s) && s != []
    ensures |s| == 1 ==> s[..0] == [] && IsHeap(cmp, s[..0]) && multiset(s) == multiset{s[0]}
    ensures |s| > 1 ==> var t := s[..|s| - 1][0 := s[|s| - 1]];
                        && OrderedExceptBelow(cmp, t, 0) && GrandchildrenOrdered(cmp, t, 0)
                        && multiset(t) + multiset{s[0]} == multiset(s)
  {
    var last := s[|s| - 1];
    assert s == s[..|s| - 1] + [last];
    if |s| > 1 {
      var front := s[..|s| - 1];
      assert front == [s[0]] + front[1..];
      assert front[0 := last] == [last] + front[1..];
    } else {
      assert s == [s[0]];
    }
  }

  class MaxHeap<T(!new)> {
    var arr: seq<T>
    const cmp: (T, T) -> int

    constructor (cmp: (T, T) -> int)
      requires IsOrdering(cmp)
      ensures Valid() && arr == [] && this.cmp == cmp
    {
      this.cmp := cmp;
      arr := [];
    }

    ghost predicate Valid()
      reads this
    {
      IsOrdering(cmp) && IsHeap(cmp, arr)
    }

    method Push(v: T)
      requires Valid()
      modifies this
      ensures Valid()
      ensures multiset(arr) == old(multiset(arr)) + multiset{v}
    {
      arr := arr + [v];
      Up(|arr| - 1);
    }

    /** The element that comes first leaves the heap; an empty heap gives none and stays empty. */
    method Pop() returns (top: seq<T>)
      requires Valid()
      modifies this
      ensures Valid()
      ensures old(arr) == [] ==> top == [] && arr == []
      ensures old(arr) != [] ==> |top| == 1 && multiset(arr) + multiset{top[0]} == old(multiset(arr))
      ensures old(arr) != [] ==> forall x :: x in old(multiset(arr)) ==> cmp(top[0], x) >= 0
    {
      if |arr| == 0 {
        return [];
      }
      hide IsOrdering, IsHeap, OrderedExceptBelow, GrandchildrenOrdered;
      RootIsFirst(cmp, arr);
      ReplaceRoot(cmp, arr);
      var first := arr[0];
      var last := arr[|arr| - 1];
      arr := arr[..|arr| - 1];
      if |arr| > 0 {
        arr := arr[0 := last];
        Down(0);
      }
      return [first];
    }

    method Up(start: int)
      requires IsOrdering(cmp) && 0 <= start < |arr|
      requires OrderedExceptAbove(cmp, arr, start) && GrandchildrenOrdered(cmp, arr, start)
      modifies this
      ensures Valid() && multiset(arr) == old(multiset(arr))
    {
      var i := start;
      while i > 0
        invariant 0 <= i < |arr|
        invariant multiset(arr) == old(multiset(arr))
        invariant OrderedExceptAbove(cmp, arr, i) && GrandchildrenOrdered(cmp, arr, i)
      {
        var p := Parent(i);
        if cmp(arr[p], arr[i]) >= 0 {
          break;
        }
        SwapUp(cmp, arr, i);
        arr := Swap(arr, p, i);
        i := p;
      }
    }

    method Down(start: int)
      requires IsOrdering(cmp) && 0 <= start < |arr|
      requires OrderedExceptBelow(cmp, arr, start) && GrandchildrenOrdered(cmp, arr, start)
      modifies this
      ensures Valid() && multiset(arr) == old(multiset(arr))
    {
      hide IsOrdering, OrderedExceptBelow, GrandchildrenOrdered, IsHeap, Parent;
      var n := |arr|;
      var i := start;
      while true
        invariant 0 <= i < n == |arr|
        invariant multiset(arr) == old(multiset(arr))
        invariant OrderedExceptBelow(cmp, arr, i) && GrandchildrenOrdered(cmp, arr, i)
        decreases n - i
      {
        var l := 2 * i + 1;
        var r := l + 1;
        var m := i;
        if l < n && cmp(arr[l], arr[m]) > 0 {
          m := l;
        }
        if r < n && cmp(arr[r], arr[m]) > 0 {
          m := r;
        }
        if m == i {
          Settled(cmp, arr, i);
          break;
        }
        EarlierChild(cmp, arr, i, m);
        SwapDown(cmp, arr, i, m);
        arr := Swap(arr, i, m);
        i := m;
      }
    }
  }

  lemma ChildrenOf(i: int)
    requires 0 <= i
    ensures forall j :: 0 < j && Parent(j) == i ==> j == 2 * i + 1 || j == 2 * i + 2
  {
  }

  lemma Settled<T(!new)>(cmp: (T, T) -> int, s: seq<T>, i: int)
    requires IsOrdering(cmp) && 0 <= i < |s| && OrderedExceptBelow(cmp, s, i)
    requires 2 * i + 1 < |s| ==> cmp(s[2 * i + 1], s[i]) <= 0
    requires 2 * i + 2 < |s| ==> cmp(s[2 * i + 2], s[i]) <= 0
    ensures IsHeap(cmp, s)
  {
  }

  lemma EarlierChild<T(!new)>(cmp: (T, T) -> int, s: seq<T>, i: int, m: int)
    requires IsOrdering(cmp) && 0 <= i < m < |s| && (m == 2 * i + 1 || m == 2 * i + 2)
    requires cmp(s[m], s[i]) > 0 || (m == 2 * i + 2 && cmp(s[m], s[m - 1]) > 0 && cmp(s[m - 1], s[i]) > 0)
    requires m == 2 * i + 1 && m + 1 < |s| ==> cmp(s[m + 1], s[m]) <= 0
    requires m == 2 * i + 2 ==> cmp(s[m], s[m - 1]) > 0 || cmp(s[m - 1], s[i]) <= 0
    ensures cmp(s[m], s[i]) > 0 && Parent(m) == i
    ensures forall j :: 0 < j < |s| && Parent(j) == i ==> cmp(s[m], s[j]) >= 0
  {
    ChildrenOf(i);
    if m == 2 * i + 2 {
      if cmp(s[m - 1], s[i]) > 0 {
        Through(cmp, s[m], s[m - 1], s[i]);
      } else {
        Through(cmp, s[m], s[i], s[m - 1]);
      }
    }
    assert cmp(s[m], s[m]) >= 0;
  }
}
