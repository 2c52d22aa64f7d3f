/** The merge at the end of the warmup: one item of each type in the heap, cut off at the target. */
module WarmMerge {
  import opened Prelude
  import opened Heaps
  import opened Sorting
  import opened Merging
  import opened FullMerge
  import opened Warmup

  /** Later time first; then the type whose key is greater, and the smaller position. */
  function WarmOrder(uc: (string, string) -> int, a: Item, b: Item): int {
    if a.entry.ts != b.entry.ts then a.entry.ts - b.entry.ts
    else if a.typeKey != b.typeKey then (if uc(a.typeKey, b.typeKey) < 0 then -1 else 1)
    else b.seqNo - a.seqNo
  }

  function WarmCmp(uc: (string, string) -> int): (Item, Item) -> int {
    (a, b) => WarmOrder(uc, a, b)
  }

  lemma WarmCmpOrders(uc: (string, string) -> int)
    requires IsCollation(uc)
    ensures IsOrdering(WarmCmp(uc)) && TellsApart(WarmCmp(uc))
  {
    var cmp := WarmCmp(uc);
    forall a, b, c | cmp(a, b) >= 0 && cmp(b, c) >= 0
      ensures cmp(a, c) >= 0
    {
      assert Link(a.typeKey, b.typeKey, c.typeKey) && Link(c.typeKey, b.typeKey, a.typeKey);
    }
  }

  /** The heap holds of each type only the item read last. */
  ghost predicate OneEach(taken: Reads, heap: multiset<Item>) {
    forall x :: x in heap ==> x.typeKey in taken && x.seqNo + 1 == taken[x.typeKey]
  }

  lemma NextItem(lists: Lists, k: string, n: nat)
    requires k in lists && n < |lists[k]|
    ensures multiset(ItemsOf(lists, k)[n..n + 1]) == multiset{Item(lists[k][n], k, n)}
  {
  }

  lemma NoItem(lists: Lists, k: string, n: nat)
    requires k in lists && n <= |lists[k]|
    ensures multiset(ItemsOf(lists, k)[n..n]) == multiset{}
  {
  }

  /** Pushes the item of one list that follows those taken, if there is one. */
  method PushNext(heap: MaxHeap<Item>, lists: Lists, k: string, idx: nat, ghost taken: Reads,
                  ghost out: seq<Item>) returns (ghost now: Reads)
    requires heap.Valid() && k in lists && ReadsFit(lists, taken) && idx == taken[k]
    requires Merged(heap.cmp, lists, taken, multiset(heap.arr), out)
    requires OneEach(taken, multiset(heap.arr)) && forall x :: x in multiset(heap.arr) ==> x.typeKey != k
    modifies heap
    ensures heap.Valid() && now == taken[k := Min(taken[k] + 1, |lists[k]|)]
    ensures Merged(heap.cmp, lists, now, multiset(heap.arr), out)
    ensures OneEach(now, multiset(heap.arr)) && Primed(lists, now, multiset(heap.arr), k)
    ensures forall x :: x in multiset(heap.arr) ==> x.typeKey == k || x in old(multiset(heap.arr))
    ensures forall j :: j in lists && j != k && Primed(lists, taken, old(multiset(heap.arr)), j) ==>
        Primed(lists, now, multiset(heap.arr), j)
    ensures |heap.arr| == old(|heap.arr|) + now[k] - taken[k]
  {
    hide IsOrdering, IsHeap, Merged, Primed;
    ghost var n := if idx < |lists[k]| then 1 else 0;
    ReadKeepsMerged(heap.cmp, lists, taken, multiset(heap.arr), out, k, n);
    ReadPrimes(lists, taken, multiset(heap.arr), k, n);
    now := taken[k := taken[k] + n];
    ghost var held := multiset(heap.arr);
    assert |held| == |heap.arr|;
    if idx < |lists[k]| {
      NextItem(lists, k, idx);
      heap.Push(Item(lists[k][idx], k, idx));
    } else {
      NoItem(lists, k, idx);
      assert held + multiset{} == held;
    }
    assert multiset(heap.arr) == held + multiset(ItemsOf(lists, k)[taken[k]..taken[k] + n]);
    assert |multiset(heap.arr)| == |heap.arr|;
  }

  /** The first item of every list into the heap. */
  method PushFirsts(heap: MaxHeap<Item>, keys: seq<string>, lists: Lists) returns (ghost taken: Reads)
    requires heap.Valid() && heap.arr == [] && Distinct(keys) && forall k :: k in keys <==> k in lists
    modifies heap
    ensures heap.Valid() && ReadsFit(lists, taken)
    ensures Merged(heap.cmp, lists, taken, multiset(heap.arr), []) && AllPrimed(lists, taken, multiset(heap.arr))
    ensures OneEach(taken, multiset(heap.arr))
    ensures |heap.arr| + Unread(keys, lists, taken) == Total(keys, lists)
  {
    hide MaxHeap.Valid, Merged, Primed, Unread, Total;
    taken := map k | k in keys :: 0;
    StartStep(heap.cmp, lists, taken);
    NoneTaken(keys, lists, taken);
    for i := 0 to |keys|
      invariant heap.Valid() && ReadsFit(lists, taken)
      invariant Merged(heap.cmp, lists, taken, multiset(heap.arr), [])
      invariant OneEach(taken, multiset(heap.arr))
      invariant forall j :: i <= j < |keys| ==> taken[keys[j]] == 0
      invariant forall j :: 0 <= j < i ==> Primed(lists, taken, multiset(heap.arr), keys[j])
      invariant |heap.arr| + Unread(keys, lists, taken) == Total(keys, lists)
    {
      UnreadAfter(keys, lists, taken, keys[i], Min(1, |lists[keys[i]]|));
      taken := PushNext(heap, lists, keys[i], 0, taken, []);
    }
  }

  lemma {:induction false} NoneTaken(keys: seq<string>, lists: Lists, taken: Reads)
    requires (forall i :: 0 <= i < |keys| ==> keys[i] in lists && taken.Keys >= {keys[i]} && taken[keys[i]] == 0) && ReadsFit(lists, taken)
    ensures Unread(keys, lists, taken) == Total(keys, lists)
  {
    if keys != [] {
      NoneTaken(keys[1..], lists, taken);
    }
  }

  /** One turn: the first item leaves the heap and the next of its type takes its place. */
  method WarmTurn(heap: MaxHeap<Item>, keys: seq<string>, lists: Lists, ghost taken: Reads, out: seq<Item>)
    returns (top: Item, ghost now: Reads)
    requires Distinct(keys) && forall k :: k in keys <==> k in lists
    requires heap.Valid() && heap.arr != [] && ReadsFit(lists, taken) && GoodOrder(heap.cmp, lists)
    requires Merged(heap.cmp, lists, taken, multiset(heap.arr), out) && AllPrimed(lists, taken, multiset(heap.arr))
    requires OneEach(taken, multiset(heap.arr))
    modifies heap
    ensures heap.Valid() && ReadsFit(lists, now)
    ensures Merged(heap.cmp, lists, now, multiset(heap.arr), out + [top]) && AllPrimed(lists, now, multiset(heap.arr))
    ensures OneEach(now, multiset(heap.arr))
    ensures |heap.arr| + Unread(keys, lists, now) + 1 == old(|heap.arr|) + Unread(keys, lists, taken)
  {
    hide MaxHeap.Valid, Merged, Primed, GoodOrder;
    ghost var held := multiset(heap.arr);
    top := TakeTop(heap, lists, taken, out);
    assert multiset(heap.arr) <= held by { Shrunk(heap.cmp, lists, taken, held, out, multiset(heap.arr), top); }
    forall x | x in multiset(heap.arr)
      ensures x.typeKey != top.typeKey
    {
      StillApart(heap.cmp, lists, taken, held, out, multiset(heap.arr), top, x);
    }
    var k := top.typeKey;
    TopIsNewest(heap.cmp, lists, taken, held, out, multiset(heap.arr), top);
    now := PushNext(heap, lists, k, top.seqNo + 1, taken, out + [top]);
    UnreadAfter(keys, lists, taken, k, now[k] - taken[k]);
  }

  lemma Shrunk(cmp: (Item, Item) -> int, lists: Lists, taken: Reads, held: multiset<Item>, out: seq<Item>, left: multiset<Item>, top: Item)
    requires Merged(cmp, lists, taken, held, out) && Merged(cmp, lists, taken, left, out + [top])
    ensures left == held - multiset{top} && top in held
  {
  }

  lemma StillApart(cmp: (Item, Item) -> int, lists: Lists, taken: Reads, held: multiset<Item>, out: seq<Item>,
                   left: multiset<Item>, top: Item, x: Item)
    requires Merged(cmp, lists, taken, held, out) && Merged(cmp, lists, taken, left, out + [top])
    requires OneEach(taken, held) && x in left
    ensures x.typeKey != top.typeKey
  {
  }

  lemma TopIsNewest(cmp: (Item, Item) -> int, lists: Lists, taken: Reads, held: multiset<Item>, out: seq<Item>,
                    left: multiset<Item>, top: Item)
    requires Merged(cmp, lists, taken, held, out) && Merged(cmp, lists, taken, left, out + [top])
    requires OneEach(taken, held)
    ensures top.typeKey in taken && top.seqNo + 1 == taken[top.typeKey]
  {
  }

  /** The warm merge gives all that was collected, because no more than the target was. */
  method MergeWarm(uc: (string, string) -> int, keys: seq<string>, lists: Lists, target: nat) returns (out: seq<Item>)
    requires IsCollation(uc) && AllSorted(WarmCmp(uc), lists)
    requires Distinct(keys) && (forall k :: k in keys <==> k in lists) && Total(keys, lists) <= target
    ensures IsMerge(WarmCmp(uc), lists, out)
  {
    hide IsOrdering, IsHeap, Sorted, Merged, AllPrimed, AllSorted, IsCollation, WarmCmp, Unread, Total, OneEach, MaxHeap.Valid;
    WarmCmpOrders(uc);
    var heap := new MaxHeap<Item>(WarmCmp(uc));
    ghost var taken := PushFirsts(heap, keys, lists);
    out := [];
    while |heap.arr| > 0 && |out| < target
      invariant fresh(heap) && heap.cmp == WarmCmp(uc)
      invariant heap.Valid() && ReadsFit(lists, taken) && OneEach(taken, multiset(heap.arr))
      invariant Merged(heap.cmp, lists, taken, multiset(heap.arr), out) && AllPrimed(lists, taken, multiset(heap.arr))
      invariant |out| + |heap.arr| + Unread(keys, lists, taken) == Total(keys, lists)
      decreases |heap.arr| + Unread(keys, lists, taken)
    {
      var top;
      top, taken := WarmTurn(heap, keys, lists, taken, out);
      out := out + [top];
    }
    assert multiset(heap.arr) == multiset{};
    FinishStep(WarmCmp(uc), lists, taken, out);
  }
}
