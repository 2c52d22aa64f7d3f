/** A log entry: its time value, its text, and where it came from. */
module Entries {
  import opened Prelude

  /** `fRank` is the position of the entry's file among the files of its type, newest first, and `rev` the
      position of its line counted from the end of that file; entries made by the warmup have neither. */
  datatype LogEntry = LogEntry(ts: int, file: string, text: string, fRank: Option<nat>, rev: Option<nat>)
}

/** The k-way merge: what any merge of sorted per-type lists through a heap produces. */
module Merging {
  import opened Heaps
  import opened Sorting
  import opened Entries

  /** A heap element: an entry, its type, and its position in the list of that type. */
  datatype Item = Item(entry: LogEntry, typeKey: string, seqNo: nat)

  type Lists = map<string, seq<LogEntry>>

  /** The entries of one list with their positions. */
  function Numbered(k: string, list: seq<LogEntry>): (r: seq<Item>)
    ensures |r| == |list|
    ensures forall i :: 0 <= i < |list| ==> r[i] == Item(list[i], k, i)
  {
    seq(|list|, i requires 0 <= i < |list| => Item(list[i], k, i))
  }

  function ItemsOf(lists: Lists, k: string): (r: seq<Item>)
    requires k in lists
    ensures |r| == |lists[k]|
  {
    Numbered(k, lists[k])
  }

  function EntriesOf(items: seq<Item>): (r: seq<LogEntry>)
    ensures |r| == |items|
    ensures forall i :: 0 <= i < |r| ==> r[i] == items[i].entry
  {
    seq(|items|, i requires 0 <= i < |items| => items[i].entry)
  }

  ghost predicate IsInput(lists: Lists, x: Item) {
    x.typeKey in lists && x.seqNo < |lists[x.typeKey]| && x.entry == lists[x.typeKey][x.seqNo]
  }

  /** Every list is sorted under the comparator. */
  ghost predicate AllSorted(cmp: (Item, Item) -> int, lists: Lists) {
    forall k :: k in lists ==> Sorted(cmp, ItemsOf(lists, k))
  }

  /** Only an item and itself tie. */
  ghost predicate TellsApart(cmp: (Item, Item) -> int) {
    forall a, b {:trigger cmp(a, b)} :: cmp(a, b) == 0 ==> a.typeKey == b.typeKey && a.seqNo == b.seqNo
  }

  ghost predicate GoodOrder(cmp: (Item, Item) -> int, lists: Lists) {
    IsOrdering(cmp) && TellsApart(cmp) && AllSorted(cmp, lists)
  }

  /** The merge of the lists: sorted, and each input item exactly once and nothing else. */
  ghost predicate IsMerge(cmp: (Item, Item) -> int, lists: Lists, out: seq<Item>) {
    && Sorted(cmp, out)
    && forall x :: multiset(out)[x] == if IsInput(lists, x) then 1 else 0
  }

  /** There is one merge, whatever was read ahead on the way to it. */
  lemma MergeIsUnique(cmp: (Item, Item) -> int, lists: Lists, a: seq<Item>, b: seq<Item>)
    requires IsOrdering(cmp) && IsMerge(cmp, lists, a) && IsMerge(cmp, lists, b)
    ensures a == b
  {
    assert forall x :: multiset(a)[x] == multiset(b)[x];
    SortedIsUnique(cmp, a, b);
  }

  // ---------- restriction to one type ----------

  function OfType(s: seq<Item>, k: string): seq<Item> {
    if s == [] then [] else (if s[0].typeKey == k then [s[0]] else []) + OfType(s[1..], k)
  }

  lemma {:induction false} OfTypeCounts(s: seq<Item>, k: string, x: Item)
    ensures multiset(OfType(s, k))[x] == if x.typeKey == k then multiset(s)[x] else 0
  {
    if s != [] {
      OfTypeCounts(s[1..], k, x);
      assert s == [s[0]] + s[1..];
    }
  }

  lemma {:induction false} OfTypeSorted(cmp: (Item, Item) -> int, s: seq<Item>, k: string)
    requires Sorted(cmp, s)
    ensures Sorted(cmp, OfType(s, k))
  {
    if s != [] {
      OfTypeSorted(cmp, s[1..], k);
      var rest := OfType(s[1..], k);
      forall j | 0 <= j < |rest|
        ensures cmp(s[0], rest[j]) > 0
      {
        OfTypeCounts(s[1..], k, rest[j]);
        assert rest[j] in multiset(rest) && rest[j] in multiset(s[1..]);
        var i :| 0 <= i < |s[1..]| && s[1..][i] == rest[j];
        assert s[1..][i] == s[i + 1];
      }
    }
  }

  lemma {:induction false} CountInDistinct(s: seq<Item>, x: Item)
    requires forall i, j :: 0 <= i < j < |s| ==> s[i] != s[j]
    ensures multiset(s)[x] == if x in s then 1 else 0
  {
    if s != [] {
      CountInDistinct(s[1..], x);
      assert s == [s[0]] + s[1..];
      assert x in s <==> x == s[0] || x in s[1..];
    }
  }

  lemma ListCounts(lists: Lists, k: string, x: Item)
    requires k in lists
    ensures multiset(ItemsOf(lists, k))[x] == if x.typeKey == k && IsInput(lists, x) then 1 else 0
  {
    CountInDistinct(ItemsOf(lists, k), x);
    if x.typeKey == k && IsInput(lists, x) {
      assert ItemsOf(lists, k)[x.seqNo] == x;
    }
  }

  /** Restricted to one type, a merge is that type's list. */
  lemma MergeOfType(cmp: (Item, Item) -> int, lists: Lists, out: seq<Item>, k: string)
    requires GoodOrder(cmp, lists) && IsMerge(cmp, lists, out) && k in lists
    ensures OfType(out, k) == ItemsOf(lists, k)
  {
    OfTypeSorted(cmp, out, k);
    forall x
      ensures multiset(OfType(out, k))[x] == multiset(ItemsOf(lists, k))[x]
    {
      OfTypeCounts(out, k, x);
      ListCounts(lists, k, x);
    }
    SortedIsUnique(cmp, OfType(out, k), ItemsOf(lists, k));
  }

  // ---------- the state of a merge under way ----------

  type Reads = map<string, nat>

  ghost predicate IsRead(lists: Lists, taken: Reads, x: Item) {
    IsInput(lists, x) && x.typeKey in taken && x.seqNo < taken[x.typeKey]
  }

  ghost predicate ReadsFit(lists: Lists, taken: Reads) {
    forall k :: k in lists ==> k in taken && taken[k] <= |lists[k]|
  }

  /** Each item read so far is once in the output or in the heap, and the output precedes all others. */
  ghost predicate Merged(cmp: (Item, Item) -> int, lists: Lists, taken: Reads, heap: multiset<Item>, out: seq<Item>) {
    && ReadsFit(lists, taken)
    && (forall x :: multiset(out)[x] + heap[x] == if IsRead(lists, taken, x) then 1 else 0)
    && Sorted(cmp, out)
    && (forall i, x :: 0 <= i < |out| && IsInput(lists, x) && x !in multiset(out) ==> cmp(out[i], x) > 0)
  }

  /** While a list has unread items, the last one read from it waits in the heap. */
  ghost predicate Primed(lists: Lists, taken: Reads, heap: multiset<Item>, k: string)
    requires k in lists && k in taken && taken[k] <= |lists[k]|
  {
    taken[k] < |lists[k]| ==> taken[k] > 0 && Item(lists[k][taken[k] - 1], k, taken[k] - 1) in heap
  }

  ghost predicate AllPrimed(lists: Lists, taken: Reads, heap: multiset<Item>)
    requires ReadsFit(lists, taken)
  {
    forall k :: k in lists ==> Primed(lists, taken, heap, k)
  }

  lemma FirstOfHeapPrecedesUnread(cmp: (Item, Item) -> int, lists: Lists, taken: Reads, heap: multiset<Item>, top: Item, x: Item)
    requires GoodOrder(cmp, lists) && ReadsFit(lists, taken) && AllPrimed(lists, taken, heap)
    requires forall y :: y in heap ==> cmp(top, y) >= 0
    requires IsInput(lists, x) && !IsRead(lists, taken, x)
    ensures cmp(top, x) > 0
  {
    var k := x.typeKey;
    var before := Item(lists[k][taken[k] - 1], k, taken[k] - 1);
    assert Primed(lists, taken, heap, k);
    assert ItemsOf(lists, k)[before.seqNo] == before && ItemsOf(lists, k)[x.seqNo] == x;
    Through(cmp, top, before, x);
  }

  lemma TopPrecedesTheRest(cmp: (Item, Item) -> int, lists: Lists, taken: Reads, heap: multiset<Item>, out: seq<Item>, top: Item, x: Item)
    requires GoodOrder(cmp, lists) && Merged(cmp, lists, taken, heap, out) && AllPrimed(lists, taken, heap)
    requires top in heap && forall y :: y in heap ==> cmp(top, y) >= 0
    requires IsInput(lists, x) && x !in multiset(out) && x != top
    ensures cmp(top, x) > 0
  {
    assert multiset(out)[top] + heap[top] == 1;
    if IsRead(lists, taken, x) {
      assert multiset(out)[x] + heap[x] == 1;
      assert x in heap;
    } else {
      FirstOfHeapPrecedesUnread(cmp, lists, taken, heap, top, x);
    }
  }

  lemma SortedSnoc(cmp: (Item, Item) -> int, out: seq<Item>, top: Item)
    requires Sorted(cmp, out) && forall i :: 0 <= i < |out| ==> cmp(out[i], top) > 0
    ensures Sorted(cmp, out + [top])
  {
  }

  lemma PopStep(cmp: (Item, Item) -> int, lists: Lists, taken: Reads, heap: multiset<Item>, out: seq<Item>, top: Item)
    requires GoodOrder(cmp, lists) && Merged(cmp, lists, taken, heap, out) && AllPrimed(lists, taken, heap)
    requires top in heap && forall y :: y in heap ==> cmp(top, y) >= 0
    ensures IsInput(lists, top)
    ensures Merged(cmp, lists, taken, heap - multiset{top}, out + [top])
    ensures forall k :: k in lists && k != top.typeKey ==> Primed(lists, taken, heap - multiset{top}, k)
  {
    hide GoodOrder, Sorted;
    var rest, longer := heap - multiset{top}, out + [top];
    assert multiset(out)[top] + heap[top] == 1;
    assert multiset(longer) == multiset(out) + multiset{top};
    assert IsRead(lists, taken, top);
    SortedSnoc(cmp, out, top);
    forall i, x | 0 <= i < |longer| && IsInput(lists, x) && x !in multiset(longer)
      ensures cmp(longer[i], x) > 0
    {
      assert x !in multiset(out) && x != top;
      if i == |out| {
        TopPrecedesTheRest(cmp, lists, taken, heap, out, top, x);
      }
    }
  }

  lemma NewlyReadCounts(lists: Lists, taken: Reads, k: string, n: nat, x: Item)
    requires ReadsFit(lists, taken) && k in lists && taken[k] + n <= |lists[k]|
    ensures multiset(ItemsOf(lists, k)[taken[k]..taken[k] + n])[x]
            == if IsRead(lists, taken[k := taken[k] + n], x) && !IsRead(lists, taken, x) then 1 else 0
  {
    var added := ItemsOf(lists, k)[taken[k]..taken[k] + n];
    CountInDistinct(added, x);
    if IsRead(lists, taken[k := taken[k] + n], x) && !IsRead(lists, taken, x) {
      assert added[x.seqNo - taken[k]] == x;
    }
  }

  /** Reading the next `n` items of one list into the heap keeps the state of the merge. */
  lemma ReadKeepsMerged(cmp: (Item, Item) -> int, lists: Lists, taken: Reads, heap: multiset<Item>, out: seq<Item>, k: string, n: nat)
    requires Merged(cmp, lists, taken, heap, out)
    requires k in lists && taken[k] + n <= |lists[k]|
    ensures Merged(cmp, lists, taken[k := taken[k] + n], heap + multiset(ItemsOf(lists, k)[taken[k]..taken[k] + n]), out)
  {
    hide Sorted, ItemsOf;
    var now := taken[k := taken[k] + n];
    var more := multiset(ItemsOf(lists, k)[taken[k]..taken[k] + n]);
    forall x
      ensures multiset(out)[x] + (heap + more)[x] == if IsRead(lists, now, x) then 1 else 0
    {
      NewlyReadCounts(lists, taken, k, n, x);
      assert multiset(out)[x] + heap[x] == if IsRead(lists, taken, x) then 1 else 0;
    }
  }

  /** Reading at least one item, or having none left to read, primes the list. */
  lemma ReadPrimes(lists: Lists, taken: Reads, heap: multiset<Item>, k: string, n: nat)
    requires ReadsFit(lists, taken) && k in lists && taken[k] + n <= |lists[k]|
    requires n == 0 ==> taken[k] == |lists[k]|
    ensures var now, more := taken[k := taken[k] + n], multiset(ItemsOf(lists, k)[taken[k]..taken[k] + n]);
            && Primed(lists, now, heap + more, k)
            && forall j :: j in lists && j != k && Primed(lists, taken, heap, j) ==> Primed(lists, now, heap + more, j)
  {
  }

  // ---------- what is left to merge ----------

  ghost function Unread(keys: seq<string>, lists: Lists, taken: Reads): nat
    requires forall i :: 0 <= i < |keys| ==> keys[i] in lists
    requires ReadsFit(lists, taken)
  {
    if keys == [] then 0 else |lists[keys[0]]| - taken[keys[0]] + Unread(keys[1..], lists, taken)
  }

  ghost predicate Distinct(keys: seq<string>) {
    forall i, j :: 0 <= i < j < |keys| ==> keys[i] != keys[j]
  }

  lemma {:induction false} UnreadAfter(keys: seq<string>, lists: Lists, taken: Reads, k: string, n: nat)
    requires forall i :: 0 <= i < |keys| ==> keys[i] in lists
    requires ReadsFit(lists, taken) && k in lists && taken[k] + n <= |lists[k]| && Distinct(keys)
    ensures Unread(keys, lists, taken[k := taken[k] + n]) == Unread(keys, lists, taken) - if k in keys then n else 0
  {
    if keys != [] {
      UnreadAfter(keys[1..], lists, taken, k, n);
      assert k in keys <==> k == keys[0] || k in keys[1..];
    }
  }

  lemma FinishStep(cmp: (Item, Item) -> int, lists: Lists, taken: Reads, out: seq<Item>)
    requires Merged(cmp, lists, taken, multiset{}, out) && AllPrimed(lists, taken, multiset{})
    ensures IsMerge(cmp, lists, out)
  {
  }

  lemma StartStep(cmp: (Item, Item) -> int, lists: Lists, taken: Reads)
    requires forall k :: k in lists ==> k in taken
    requires forall k :: k in taken ==> taken[k] == 0
    ensures Merged(cmp, lists, taken, multiset{}, [])
  {
  }
}
