/** The disk merge: prefetching cursors over the per-type lists, a heap, and output in batches. */
module FullMerge {
  import opened Prelude
  import opened Heaps
  import opened Sorting
  import opened Entries
  import opened Merging

  /** `localeCompare` as a total order on names. */
  ghost predicate IsCollation(lc: (string, string) -> int) {
    IsOrdering(lc) && forall a, b {:trigger lc(a, b)} :: lc(a, b) == 0 <==> a == b
  }

  function OrLast(o: Option<nat>): nat {
    if o.Some? then o.value else 9999
  }

  /** Later time first; then smaller file rank, file name, line from the end, type and position. */
  function MergeOrder(lc: (string, string) -> int, a: Item, b: Item): int {
    var x, y := a.entry, b.entry;
    if x.ts != y.ts then x.ts - y.ts
    else if OrLast(x.fRank) != OrLast(y.fRank) then OrLast(y.fRank) - OrLast(x.fRank)
    else if x.file != y.file then lc(y.file, x.file)
    else if OrLast(x.rev) != OrLast(y.rev) then OrLast(y.rev) - OrLast(x.rev)
    else if a.typeKey != b.typeKey then lc(b.typeKey, a.typeKey)
    else b.seqNo - a.seqNo
  }

  function MergeCmp(lc: (string, string) -> int): (Item, Item) -> int {
    (a, b) => MergeOrder(lc, a, b)
  }

  lemma MergeOrderChains(lc: (string, string) -> int, a: Item, b: Item, c: Item)
    requires IsCollation(lc) && MergeOrder(lc, a, b) >= 0 && MergeOrder(lc, b, c) >= 0
    ensures MergeOrder(lc, a, c) >= 0
  {
    assert Link(c.entry.file, b.entry.file, a.entry.file);
    assert Link(c.typeKey, b.typeKey, a.typeKey);
  }

  lemma MergeCmpOrders(lc: (string, string) -> int)
    requires IsCollation(lc)
    ensures IsOrdering(MergeCmp(lc)) && TellsApart(MergeCmp(lc))
  {
    var cmp := MergeCmp(lc);
    forall a, b, c | cmp(a, b) >= 0 && cmp(b, c) >= 0
      ensures cmp(a, c) >= 0
    {
      MergeOrderChains(lc, a, b, c);
    }
  }

  /** Reads one per-type list from the front. */
  class MergedCursor {
    const typeKey: string
    const list: seq<LogEntry>
    var pos: nat
    var seqNo: nat
    var isExhausted: bool

    constructor (typeKey: string, list: seq<LogEntry>)
      ensures Valid() && pos == 0 && !isExhausted && this.typeKey == typeKey && this.list == list
    {
      this.typeKey, this.list := typeKey, list;
      pos, seqNo, isExhausted := 0, 0, false;
    }

    ghost predicate Valid()
      reads this
    {
      seqNo == pos <= |list| && (isExhausted ==> pos == |list|)
    }

    /** The end is noticed only by a read that finds nothing. */
    method NextBatch(size: nat) returns (batch: seq<LogEntry>)
      requires Valid()
      modifies this`pos, this`isExhausted
      ensures pos == Min(old(pos) + size, |list|) && batch == list[old(pos)..pos]
      ensures isExhausted == (old(isExhausted) || batch == [])
    {
      if isExhausted {
        return [];
      }
      var end := Min(pos + size, |list|);
      batch := list[pos..end];
      if |batch| == 0 {
        isExhausted := true;
        return;
      }
      pos := end;
    }

    /** Reads a batch and pushes its entries, numbered on. */
    method Feed(heap: MaxHeap<Item>, size: nat)
      requires Valid() && heap.Valid() && size >= 1
      modifies this, heap
      ensures Valid() && heap.Valid()
      ensures pos == Min(old(pos) + size, |list|)
      ensures multiset(heap.arr) == old(multiset(heap.arr)) + multiset(Numbered(typeKey, list)[old(pos)..pos])
    {
      hide IsOrdering, IsHeap;
      var batch := NextBatch(size);
      PushAll(heap, typeKey, batch, seqNo);
      assert From(typeKey, batch, seqNo) == Numbered(typeKey, list)[old(pos)..pos];
      seqNo := seqNo + |batch|;
    }
  }

  function From(typeKey: string, batch: seq<LogEntry>, first: nat): (r: seq<Item>)
    ensures |r| == |batch|
    ensures forall i :: 0 <= i < |r| ==> r[i] == Item(batch[i], typeKey, first + i)
  {
    seq(|batch|, i requires 0 <= i < |batch| => Item(batch[i], typeKey, first + i))
  }

  method PushAll(heap: MaxHeap<Item>, typeKey: string, batch: seq<LogEntry>, first: nat)
    requires heap.Valid()
    modifies heap
    ensures heap.Valid()
    ensures multiset(heap.arr) == old(multiset(heap.arr)) + multiset(From(typeKey, batch, first))
  {
    hide IsOrdering, IsHeap;
    var seqNo := first;
    ghost var items := From(typeKey, batch, first);
    for i := 0 to |batch|
      invariant heap.Valid() && seqNo == first + i
      invariant multiset(heap.arr) == old(multiset(heap.arr)) + multiset(items[..i])
    {
      assert items[..i + 1] == items[..i] + [Item(batch[i], typeKey, seqNo)];
      heap.Push(Item(batch[i], typeKey, seqNo));
      seqNo := seqNo + 1;
    }
    assert items[..|batch|] == items;
  }

  /** Full batches of `size`, then at most one shorter, non-empty batch. */
  ghost predicate CutInto(batches: seq<seq<LogEntry>>, size: nat) {
    && (forall i :: 0 <= i < |batches| - 1 ==> |batches[i]| == size)
    && (batches != [] ==> 1 <= |batches[|batches| - 1]| <= size)
  }

  /** The cursors stand where `taken` says. */
  ghost predicate CursorsAt(cursors: map<string, MergedCursor>, lists: Lists, taken: Reads)
    reads cursors.Values
  {
    && (forall k :: k in lists ==> k in cursors && k in taken)
    && (forall k :: k in lists ==>
        cursors[k].Valid() && cursors[k].typeKey == k && cursors[k].list == lists[k] && cursors[k].pos == taken[k])
    && (forall j, k :: j in lists && k in lists && j != k ==> cursors[j] != cursors[k])
  }

  method OpenCursors(keys: seq<string>, lists: Lists) returns (cursors: map<string, MergedCursor>, ghost taken: Reads)
    requires Distinct(keys) && forall k :: k in keys <==> k in lists
    ensures CursorsAt(cursors, lists, taken) && fresh(cursors.Values)
    ensures forall k :: k in taken ==> taken[k] == 0
  {
    cursors, taken := map[], map[];
    for i := 0 to |keys|
      invariant fresh(cursors.Values)
      invariant forall k :: k in keys[..i] ==> k in cursors && k in taken
      invariant forall k :: k in taken ==> taken[k] == 0
      invariant forall k :: k in keys[..i] ==>
          cursors[k].Valid() && cursors[k].typeKey == k && cursors[k].list == lists[k] && cursors[k].pos == 0
      invariant forall j, k :: j in keys[..i] && k in keys[..i] && j != k ==> cursors[j] != cursors[k]
    {
      var cursor := new MergedCursor(keys[i], lists[keys[i]]);
      assert forall k :: k in keys[..i] ==> cursors[k] in cursors.Values;
      assert forall k :: k in keys[..i + 1] <==> k in keys[..i] || k == keys[i];
      ghost var before := cursors;
      cursors := cursors[keys[i] := cursor];
      assert cursors.Values <= before.Values + {cursor};
      taken := taken[keys[i] := 0];
    }
    assert keys[..|keys|] == keys;
  }

  /** A batch of one list goes into the heap. */
  method FeedOne(heap: MaxHeap<Item>, cursors: map<string, MergedCursor>, lists: Lists, k: string, size: nat, ghost taken: Reads)
    requires size >= 1 && k in lists && ReadsFit(lists, taken) && heap.Valid() && CursorsAt(cursors, lists, taken)
    modifies heap, cursors[k]
    ensures heap.Valid() && CursorsAt(cursors, lists, taken[k := Min(taken[k] + size, |lists[k]|)])
    ensures multiset(heap.arr)
            == old(multiset(heap.arr)) + multiset(ItemsOf(lists, k)[taken[k]..Min(taken[k] + size, |lists[k]|)])
  {
    hide MaxHeap.Valid, Numbered;
    cursors[k].Feed(heap, size);
  }

  /** Reads on in one list. */
  method Refill(heap: MaxHeap<Item>, cursors: map<string, MergedCursor>, lists: Lists, k: string, size: nat,
                ghost taken: Reads, ghost out: seq<Item>)
    returns (ghost now: Reads)
    requires size >= 1 && k in lists && ReadsFit(lists, taken)
    requires heap.Valid() && CursorsAt(cursors, lists, taken)
    requires Merged(heap.cmp, lists, taken, multiset(heap.arr), out)
    modifies heap, cursors[k]
    ensures heap.Valid() && CursorsAt(cursors, lists, now)
    ensures now == taken[k := Min(taken[k] + size, |lists[k]|)]
    ensures Merged(heap.cmp, lists, now, multiset(heap.arr), out)
    ensures Primed(lists, now, multiset(heap.arr), k)
    ensures forall j :: j in lists && j != k && Primed(lists, taken, old(multiset(heap.arr)), j) ==>
        Primed(lists, now, multiset(heap.arr), j)
    ensures |heap.arr| == old(|heap.arr|) + now[k] - taken[k]
  {
    hide MaxHeap.Valid, Merged, Primed, CursorsAt, ItemsOf;
    ghost var n := Min(size, |lists[k]| - taken[k]);
    ReadKeepsMerged(heap.cmp, lists, taken, multiset(heap.arr), out, k, n);
    ReadPrimes(lists, taken, multiset(heap.arr), k, n);
    now := taken[k := taken[k] + n];
    ghost var before := heap.arr;
    FeedOne(heap, cursors, lists, k, size, taken);
    assert |multiset(heap.arr)| == |heap.arr| && |multiset(before)| == |before|;
  }

  /** The first batch of every list into the heap. */
  method Prime(heap: MaxHeap<Item>, cursors: map<string, MergedCursor>, keys: seq<string>, lists: Lists, prefetch: nat, ghost start: Reads)
    returns (ghost taken: Reads)
    requires prefetch >= 1 && Distinct(keys) && forall k :: k in keys <==> k in lists
    requires heap.Valid() && heap.arr == [] && CursorsAt(cursors, lists, start)
    requires forall k :: k in start ==> start[k] == 0
    modifies heap, cursors.Values
    ensures heap.Valid() && CursorsAt(cursors, lists, taken) && ReadsFit(lists, taken)
    ensures Merged(heap.cmp, lists, taken, multiset(heap.arr), []) && AllPrimed(lists, taken, multiset(heap.arr))
  {
    hide IsOrdering, IsHeap, Merged, Primed;
    taken := start;
    StartStep(heap.cmp, lists, taken);
    for i := 0 to |keys|
      invariant heap.Valid() && CursorsAt(cursors, lists, taken) && ReadsFit(lists, taken)
      invariant Merged(heap.cmp, lists, taken, multiset(heap.arr), [])
      invariant forall j :: 0 <= j < i ==> Primed(lists, taken, multiset(heap.arr), keys[j])
    {
      taken := Refill(heap, cursors, lists, keys[i], prefetch, taken, []);
    }
  }

  lemma NothingTaken(lists: Lists, taken: Reads, heap: multiset<Item>, k: string)
    requires k in lists && ReadsFit(lists, taken) && taken[k] == |lists[k]|
    ensures Primed(lists, taken, heap, k)
  {
  }

  /** The first item of the heap leaves it for the output. */
  method TakeTop(heap: MaxHeap<Item>, lists: Lists, ghost taken: Reads, ghost merged: seq<Item>) returns (top: Item)
    requires heap.Valid() && heap.arr != [] && ReadsFit(lists, taken) && GoodOrder(heap.cmp, lists)
    requires Merged(heap.cmp, lists, taken, multiset(heap.arr), merged) && AllPrimed(lists, taken, multiset(heap.arr))
    modifies heap
    ensures heap.Valid() && |heap.arr| == old(|heap.arr|) - 1 && top.typeKey in lists
    ensures Merged(heap.cmp, lists, taken, multiset(heap.arr), merged + [top])
    ensures forall k :: k in lists && k != top.typeKey ==> Primed(lists, taken, multiset(heap.arr), k)
  {
    hide IsOrdering, IsHeap, Sorted, Merged, Primed, GoodOrder;
    ghost var held := multiset(heap.arr);
    assert |held| == |heap.arr|;
    var popped := heap.Pop();
    top := popped[0];
    assert top in held;
    PopStep(heap.cmp, lists, taken, held, merged, top);
    assert multiset(heap.arr) == held - multiset{top};
    assert |multiset(heap.arr)| == |heap.arr|;
  }

  /** One turn of the merge: the first item of the heap leaves it, and its list is read on. */
  method Turn(heap: MaxHeap<Item>, cursors: map<string, MergedCursor>, keys: seq<string>, lists: Lists, prefetch: nat,
              ghost taken: Reads, merged: seq<Item>)
    returns (top: Item, ghost now: Reads)
    requires prefetch >= 1 && Distinct(keys) && forall k :: k in keys <==> k in lists
    requires heap.Valid() && heap.arr != [] && CursorsAt(cursors, lists, taken) && ReadsFit(lists, taken)
    requires GoodOrder(heap.cmp, lists)
    requires Merged(heap.cmp, lists, taken, multiset(heap.arr), merged) && AllPrimed(lists, taken, multiset(heap.arr))
    modifies heap, cursors.Values
    ensures heap.Valid() && CursorsAt(cursors, lists, now) && ReadsFit(lists, now)
    ensures Merged(heap.cmp, lists, now, multiset(heap.arr), merged + [top]) && AllPrimed(lists, now, multiset(heap.arr))
    ensures |heap.arr| + Unread(keys, lists, now) < old(|heap.arr|) + Unread(keys, lists, taken)
  {
    hide MaxHeap.Valid, Merged, Primed, GoodOrder;
    top := TakeTop(heap, lists, taken, merged);
    var k := top.typeKey;
    assert cursors[k] in cursors.Values;
    if !cursors[k].isExhausted {
      now := Refill(heap, cursors, lists, k, prefetch, taken, merged + [top]);
      UnreadAfter(keys, lists, taken, k, now[k] - taken[k]);
    } else {
      now := taken;
      NothingTaken(lists, taken, multiset(heap.arr), k);
    }
  }

  lemma EntriesSnoc(items: seq<Item>, x: Item)
    ensures EntriesOf(items + [x]) == EntriesOf(items) + [x.entry]
  {
    hide EntriesOf;
  }

  lemma NothingYet()
    ensures EntriesOf([]) == [] && Flatten<LogEntry>([]) == []
  {
  }

  /** The disk merge of the per-type lists. Its result is the merge of the lists, whatever the read-ahead
      and the batch size; the batches cut it into pieces. */
  method KWayMerge(lc: (string, string) -> int, keys: seq<string>, lists: Lists, prefetch: nat, batchSize: int)
    returns (batches: seq<seq<LogEntry>>, merged: seq<Item>)
    requires IsCollation(lc) && AllSorted(MergeCmp(lc), lists)
    requires Distinct(keys) && (forall k :: k in keys <==> k in lists) && prefetch >= 1
    ensures IsMerge(MergeCmp(lc), lists, merged)
    ensures Flatten(batches) == EntriesOf(merged) && CutInto(batches, Max(1, batchSize))
  {
    hide IsOrdering, IsHeap, Sorted, Merged, AllPrimed, AllSorted, IsCollation, MergeCmp, CursorsAt, Unread, MaxHeap.Valid, ReadsFit;
    hide EntriesOf, Flatten;
    NothingYet();
    MergeCmpOrders(lc);
    var size := Max(1, batchSize);
    var cursors, taken := OpenCursors(keys, lists);
    var heap := new MaxHeap<Item>(MergeCmp(lc));
    taken := Prime(heap, cursors, keys, lists, prefetch, taken);
    batches, merged := [], [];
    var outBatch: seq<LogEntry> := [];
    while |heap.arr| > 0
      invariant fresh(heap) && fresh(cursors.Values) && heap.cmp == MergeCmp(lc)
      invariant heap.Valid() && CursorsAt(cursors, lists, taken) && ReadsFit(lists, taken)
      invariant Merged(heap.cmp, lists, taken, multiset(heap.arr), merged) && AllPrimed(lists, taken, multiset(heap.arr))
      invariant Flatten(batches) + outBatch == EntriesOf(merged)
      invariant |outBatch| < size && forall i :: 0 <= i < |batches| ==> |batches[i]| == size
      decreases |heap.arr| + Unread(keys, lists, taken)
    {
      var top;
      top, taken := Turn(heap, cursors, keys, lists, prefetch, taken, merged);
      EntriesSnoc(merged, top);
      assert Flatten(batches) + (outBatch + [top.entry]) == (Flatten(batches) + outBatch) + [top.entry];
      merged := merged + [top];
      outBatch := outBatch + [top.entry];
      if |outBatch| >= size {
        FlattenSnoc(batches, outBatch);
        batches := batches + [outBatch];
        outBatch := [];
      }
    }
    assert multiset(heap.arr) == multiset{};
    FinishStep(MergeCmp(lc), lists, taken, merged);
    if |outBatch| > 0 {
      FlattenSnoc(batches, outBatch);
      batches := batches + [outBatch];
    }
  }

  /** The same entries in the same order for every read-ahead and every batch size. */
  lemma MergeIgnoresReadAhead(lc: (string, string) -> int, lists: Lists, a: seq<Item>, b: seq<Item>)
    requires IsCollation(lc) && IsMerge(MergeCmp(lc), lists, a) && IsMerge(MergeCmp(lc), lists, b)
    ensures a == b
  {
    MergeCmpOrders(lc);
    MergeIsUnique(MergeCmp(lc), lists, a, b);
  }

  /** The merge never rises in time, and holds each type's list in its own order. */
  lemma MergeIsFaithful(lc: (string, string) -> int, lists: Lists, merged: seq<Item>)
    requires IsCollation(lc) && AllSorted(MergeCmp(lc), lists) && IsMerge(MergeCmp(lc), lists, merged)
    ensures forall i, j :: 0 <= i < j < |merged| ==> merged[i].entry.ts >= merged[j].entry.ts
    ensures forall k :: k in lists ==> EntriesOf(OfType(merged, k)) == lists[k]
    ensures forall x :: x in merged ==> x.typeKey in lists
  {
    MergeCmpOrders(lc);
    forall k | k in lists
      ensures EntriesOf(OfType(merged, k)) == lists[k]
    {
      MergeOfType(MergeCmp(lc), lists, merged, k);
    }
    forall i, j | 0 <= i < j < |merged|
      ensures merged[i].entry.ts >= merged[j].entry.ts
    {
      assert MergeCmp(lc)(merged[i], merged[j]) > 0;
    }
    forall x | x in merged
      ensures x.typeKey in lists
    {
      assert x in multiset(merged);
    }
  }
}
