/** A merge session over a directory: the warmup, the decision to skip the disk merge, the disk merge. */
module MergeSession {
  import opened Prelude
  import opened LineReading
  import opened Sorting
  import opened Entries
  import opened Directory
  import opened Merging
  import opened FullMerge
  import opened TypePass
  import opened Warmup
  import opened WarmMerge

  // ---------- every valid line exactly once ----------

  function SourcesOfType(list: seq<Item>, k: string): seq<Source> {
    SourcesOf(EntriesOf(OfType(list, k)))
  }

  /** The list holds, for each type, exactly its valid lines in physical order, and nothing of other types. */
  ghost predicate Complete(p: Parsing, dir: seq<LogFile>, list: seq<Item>) {
    && (forall k :: k in TypeKeys(dir) ==> SourcesOfType(list, k) == LinesOfType(p, dir, k))
    && forall i :: 0 <= i < |list| ==> list[i].typeKey in TypeKeys(dir)
  }

  ghost function Pooled(p: Parsing, dir: seq<LogFile>, keys: seq<string>): multiset<Source> {
    if keys == [] then multiset{} else multiset(ValidLinesOf(p, FilesOf(dir, keys[0]))) + Pooled(p, dir, keys[1..])
  }

  lemma {:induction false} FilesOfSnoc(dir: seq<LogFile>, f: LogFile, k: string)
    ensures FilesOf(dir + [f], k) == FilesOf(dir, k) + if f.typeKey == k then [f] else []
  {
    var longer := dir + [f];
    if dir == [] {
      assert longer[1..] == [];
      assert FilesOf(longer[1..], k) == [];
    } else {
      assert longer[0] == dir[0] && longer[1..] == dir[1..] + [f];
      FilesOfSnoc(dir[1..], f, k);
      var head := if dir[0].typeKey == k then [dir[0]] else [];
      assert FilesOf(dir, k) == head + FilesOf(dir[1..], k);
      assert FilesOf(longer, k) == head + FilesOf(longer[1..], k);
    }
  }

  lemma ValidLinesOfOne(p: Parsing, f: LogFile)
    ensures ValidLinesOf(p, [f]) == ValidLines(p, f)
  {
  }

  lemma FilesOfGrows(p: Parsing, dir: seq<LogFile>, f: LogFile, k: string)
    ensures multiset(ValidLinesOf(p, FilesOf(dir + [f], k)))
            == multiset(ValidLinesOf(p, FilesOf(dir, k))) + if f.typeKey == k then multiset(ValidLines(p, f)) else multiset{}
  {
    hide ValidLines, ValidLinesOf;
    FilesOfSnoc(dir, f, k);
    if f.typeKey == k {
      ValidLinesAppend(p, FilesOf(dir, k), [f]);
      ValidLinesOfOne(p, f);
    } else {
      assert FilesOf(dir, k) + [] == FilesOf(dir, k);
    }
  }

  lemma {:induction false} PooledGrows(p: Parsing, dir: seq<LogFile>, f: LogFile, keys: seq<string>)
    requires Distinct(keys)
    ensures Pooled(p, dir + [f], keys)
            == Pooled(p, dir, keys) + if f.typeKey in keys then multiset(ValidLines(p, f)) else multiset{}
  {
    hide ValidLines, ValidLinesOf, FilesOf;
    if keys != [] {
      PooledGrows(p, dir, f, keys[1..]);
      FilesOfGrows(p, dir, f, keys[0]);
      assert f.typeKey in keys <==> f.typeKey == keys[0] || f.typeKey in keys[1..];
    }
  }

  lemma {:induction false} PooledSnoc(p: Parsing, dir: seq<LogFile>, keys: seq<string>, k: string)
    ensures Pooled(p, dir, keys + [k]) == Pooled(p, dir, keys) + multiset(ValidLinesOf(p, FilesOf(dir, k)))
  {
    hide ValidLinesOf, FilesOf;
    if keys == [] {
      assert (keys + [k])[1..] == [];
    } else {
      assert (keys + [k])[1..] == keys[1..] + [k];
      PooledSnoc(p, dir, keys[1..], k);
    }
  }

  lemma {:induction false} NoFilesOf(dir: seq<LogFile>, k: string)
    requires forall i :: 0 <= i < |dir| ==> dir[i].typeKey != k
    ensures FilesOf(dir, k) == []
  {
    if dir != [] {
      NoFilesOf(dir[1..], k);
    }
  }

  /** Grouping loses no file: the types together hold the lines of the directory. */
  lemma {:induction false} PooledIsAll(p: Parsing, dir: seq<LogFile>)
    ensures Pooled(p, dir, TypeKeys(dir)) == multiset(ValidLinesOf(p, dir))
  {
    if dir != [] {
      hide ValidLines, FilesOf, ValidLinesOf, Pooled;
      var front, f := dir[..|dir| - 1], dir[|dir| - 1];
      var keys := TypeKeys(front);
      assert dir == front + [f];
      PooledIsAll(p, front);
      LinesSnoc(p, front, f);
      PooledGrows(p, front, f, keys);
      if f.typeKey !in keys {
        PooledSnoc(p, dir, keys, f.typeKey);
        NoFilesOf(front, f.typeKey);
        FilesOfGrows(p, front, f, f.typeKey);
      }
    }
  }

  lemma {:induction false} InsertKeepsLines(p: Parsing, f: LogFile, files: seq<LogFile>, key: LogFile -> int)
    ensures multiset(ValidLinesOf(p, Insert(f, files, key))) == multiset(ValidLines(p, f)) + multiset(ValidLinesOf(p, files))
  {
    hide ValidLines;
    if files == [] || key(files[0]) < key(f) {
      assert ([f] + files)[1..] == files;
    } else {
      InsertKeepsLines(p, f, files[1..], key);
      assert ([files[0]] + Insert(f, files[1..], key))[1..] == Insert(f, files[1..], key);
    }
  }

  lemma LinesSnoc(p: Parsing, front: seq<LogFile>, f: LogFile)
    ensures multiset(ValidLinesOf(p, front + [f])) == multiset(ValidLinesOf(p, front)) + multiset(ValidLines(p, f))
  {
    hide ValidLines, ValidLinesOf;
    ValidLinesAppend(p, front, [f]);
    ValidLinesOfOne(p, f);
  }

  lemma {:induction false} SortKeepsLines(p: Parsing, files: seq<LogFile>, key: LogFile -> int)
    ensures multiset(ValidLinesOf(p, StableSort(files, key))) == multiset(ValidLinesOf(p, files))
  {
    hide ValidLines, ValidLinesOf, Insert;
    if files != [] {
      var front, f := files[..|files| - 1], files[|files| - 1];
      assert files == front + [f];
      SortKeepsLines(p, front, key);
      InsertKeepsLines(p, f, StableSort(front, key), key);
      LinesSnoc(p, front, f);
    }
  }

  lemma LinesOfTypePool(p: Parsing, dir: seq<LogFile>, k: string)
    ensures multiset(LinesOfType(p, dir, k)) == multiset(ValidLinesOf(p, FilesOf(dir, k)))
  {
    SortKeepsLines(p, FilesOf(dir, k), (f: LogFile) => -f.rotation);
  }

  ghost function PooledList(list: seq<Item>, keys: seq<string>): multiset<Source> {
    if keys == [] then multiset{} else multiset(SourcesOfType(list, keys[0])) + PooledList(list, keys[1..])
  }

  lemma SourcesOfTypeCons(x: Item, list: seq<Item>, k: string)
    ensures multiset(SourcesOfType([x] + list, k))
            == multiset(SourcesOfType(list, k)) + if x.typeKey == k then multiset{Source(x.entry.file, x.entry.text)} else multiset{}
  {
    assert ([x] + list)[1..] == list;
    if x.typeKey == k {
      assert SourcesOfType([x] + list, k) == [Source(x.entry.file, x.entry.text)] + SourcesOfType(list, k);
    } else {
      assert OfType([x] + list, k) == OfType(list, k);
    }
  }

  lemma {:induction false} PooledListCons(x: Item, list: seq<Item>, keys: seq<string>)
    requires Distinct(keys)
    ensures PooledList([x] + list, keys)
            == PooledList(list, keys) + if x.typeKey in keys then multiset{Source(x.entry.file, x.entry.text)} else multiset{}
  {
    hide SourcesOfType;
    if keys != [] {
      PooledListCons(x, list, keys[1..]);
      SourcesOfTypeCons(x, list, keys[0]);
      assert x.typeKey in keys <==> x.typeKey == keys[0] || x.typeKey in keys[1..];
    }
  }

  lemma {:induction false} PooledListEmpty(keys: seq<string>)
    ensures PooledList([], keys) == multiset{}
  {
    if keys != [] {
      PooledListEmpty(keys[1..]);
      assert SourcesOfType([], keys[0]) == [];
    }
  }

  /** The restrictions of a list to all its types make up the list. */
  lemma {:induction false} PooledListIsAll(list: seq<Item>, keys: seq<string>)
    requires Distinct(keys) && forall i :: 0 <= i < |list| ==> list[i].typeKey in keys
    ensures PooledList(list, keys) == multiset(SourcesOf(EntriesOf(list)))
    decreases |list|
  {
    if list == [] {
      PooledListEmpty(keys);
      assert SourcesOf(EntriesOf(list)) == [];
    } else {
      hide PooledList, SourcesOf, EntriesOf;
      var x, rest := list[0], list[1..];
      assert list == [x] + rest;
      PooledListIsAll(rest, keys);
      PooledListCons(x, rest, keys);
      SourcesCons(x, rest);
    }
  }

  lemma SourcesCons(x: Item, rest: seq<Item>)
    ensures SourcesOf(EntriesOf([x] + rest)) == [Source(x.entry.file, x.entry.text)] + SourcesOf(EntriesOf(rest))
  {
  }

  lemma {:induction false} PoolsAgree(p: Parsing, dir: seq<LogFile>, list: seq<Item>, keys: seq<string>)
    requires forall i :: 0 <= i < |keys| ==> SourcesOfType(list, keys[i]) == LinesOfType(p, dir, keys[i])
    ensures PooledList(list, keys) == Pooled(p, dir, keys)
  {
    hide SourcesOfType, LinesOfType, ValidLinesOf;
    if keys != [] {
      PoolsAgree(p, dir, list, keys[1..]);
      LinesOfTypePool(p, dir, keys[0]);
    }
  }

  /** A complete list holds every valid line of the directory exactly once. */
  lemma CompleteHoldsAllOnce(p: Parsing, dir: seq<LogFile>, list: seq<Item>)
    requires Complete(p, dir, list)
    ensures multiset(SourcesOf(EntriesOf(list))) == multiset(ValidLinesOf(p, dir))
  {
    hide SourcesOfType, LinesOfType, ValidLinesOf, Pooled, PooledList;
    var keys := TypeKeys(dir);
    PooledListIsAll(list, keys);
    PoolsAgree(p, dir, list, keys);
    PooledIsAll(p, dir);
  }

  /** Two complete lists, however they were merged and timed, are permutations of the same lines and agree
      line by line on every type. */
  lemma CompleteListsAgree(p: Parsing, dir: seq<LogFile>, a: seq<Item>, b: seq<Item>)
    requires Complete(p, dir, a) && Complete(p, dir, b)
    ensures multiset(SourcesOf(EntriesOf(a))) == multiset(SourcesOf(EntriesOf(b)))
    ensures forall k :: k in TypeKeys(dir) ==> SourcesOfType(a, k) == SourcesOfType(b, k)
  {
    CompleteHoldsAllOnce(p, dir, a);
    CompleteHoldsAllOnce(p, dir, b);
  }

  // ---------- the warmup prepass ----------

  function FilesByType(dir: seq<LogFile>): (r: map<string, seq<LogFile>>)
    ensures forall k :: k in r <==> k in TypeKeys(dir)
    ensures forall k :: k in r ==> r[k] == OrderedFiles(dir, k)
  {
    map k | k in TypeKeys(dir) :: OrderedFiles(dir, k)
  }

  /** The lists a merge works on, type by type. */
  ghost predicate Timed(p: Parsing, before: Lists, after: Lists) {
    && before.Keys == after.Keys
    && forall k :: k in before ==>
         SourcesOf(after[k]) == SourcesOf(before[k]) && NonIncreasing(TimesOf(after[k]))
  }

  /** Stitches, corrects and sorts the buffers. */
  method TimeBuffers(p: Parsing, keys: seq<string>, buffers: Lists) returns (lists: Lists)
    requires Distinct(keys) && forall k :: k in keys <==> k in buffers
    ensures Timed(p, buffers, lists)
  {
    hide SourcesOf, TimesOf, IsTimed, Placed, NonIncreasing;
    lists := map[];
    for i := 0 to |keys|
      invariant forall k :: k in lists <==> k in keys[..i]
      invariant forall k :: k in lists ==> SourcesOf(lists[k]) == SourcesOf(buffers[k]) && NonIncreasing(TimesOf(lists[k]))
    {
      var arr := TimeAndSort(p, buffers[keys[i]]);
      assert keys[..i + 1] == keys[..i] + [keys[i]];
      lists := lists[keys[i] := arr];
    }
    assert keys[..|keys|] == keys;
  }

  lemma {:induction false} TotalOfTimed(p: Parsing, keys: seq<string>, before: Lists, after: Lists)
    requires Timed(p, before, after) && forall i :: 0 <= i < |keys| ==> keys[i] in before
    ensures Total(keys, after) == Total(keys, before)
  {
    if keys != [] {
      TotalOfTimed(p, keys[1..], before, after);
      assert |SourcesOf(after[keys[0]])| == |SourcesOf(before[keys[0]])|;
    }
  }

  /** What a warm list is: of each type its newest valid lines in physical order, times falling overall. */
  ghost predicate IsWarm(p: Parsing, dir: seq<LogFile>, logs: seq<Item>) {
    && (forall k :: k in TypeKeys(dir) ==> SourcesOfType(logs, k) <= LinesOfType(p, dir, k))
    && (forall i :: 0 <= i < |logs| ==> logs[i].typeKey in TypeKeys(dir))
    && NonIncreasing(TimesOf(EntriesOf(logs)))
  }

  lemma MergedSources(cmp: (Item, Item) -> int, lists: Lists, out: seq<Item>, k: string)
    requires GoodOrder(cmp, lists) && IsMerge(cmp, lists, out) && k in lists
    ensures SourcesOfType(out, k) == SourcesOf(lists[k])
  {
    hide GoodOrder, IsMerge;
    MergeOfType(cmp, lists, out, k);
    assert EntriesOf(ItemsOf(lists, k)) == lists[k];
  }

  lemma MergedTypes(cmp: (Item, Item) -> int, lists: Lists, out: seq<Item>)
    requires IsMerge(cmp, lists, out)
    ensures forall i :: 0 <= i < |out| ==> out[i].typeKey in lists
  {
    forall i | 0 <= i < |out|
      ensures out[i].typeKey in lists
    {
      assert out[i] in multiset(out);
    }
  }

  lemma WarmTimesFall(uc: (string, string) -> int, out: seq<Item>)
    requires Sorted(WarmCmp(uc), out)
    ensures NonIncreasing(TimesOf(EntriesOf(out)))
  {
  }

  lemma WarmGoodOrder(p: Parsing, uc: (string, string) -> int, before: Lists, after: Lists)
    requires IsCollation(uc) && Timed(p, before, after)
    ensures GoodOrder(WarmCmp(uc), after) && AllSorted(WarmCmp(uc), after)
  {
    WarmCmpOrders(uc);
    TimedIsSorted(p, uc, before, after);
  }

  lemma WarmFacts(p: Parsing, dir: seq<LogFile>, uc: (string, string) -> int, buffers: Lists, lists: Lists, out: seq<Item>, cap: nat)
    requires IsCollation(uc) && Timed(p, buffers, lists) && IsMerge(WarmCmp(uc), lists, out)
    requires forall k :: k in buffers <==> k in TypeKeys(dir)
    requires forall k :: k in buffers ==> HoldsNewest(p, OrderedFiles(dir, k), buffers[k]) && |buffers[k]| <= cap
    ensures IsWarm(p, dir, out)
    ensures forall k :: k in TypeKeys(dir) ==> SourcesOfType(out, k) == SourcesOf(buffers[k]) && |SourcesOfType(out, k)| <= cap
  {
    WarmGoodOrder(p, uc, buffers, lists);
    MergedTypes(WarmCmp(uc), lists, out);
    WarmTimesFall(uc, out);
    hide GoodOrder, AllSorted, IsMerge, WarmCmp, SourcesOfType, ValidLinesOf, OrderedFiles, NonIncreasing, TypeKeys;
    forall k | k in TypeKeys(dir)
      ensures SourcesOfType(out, k) == SourcesOf(buffers[k]) && SourcesOfType(out, k) <= LinesOfType(p, dir, k)
    {
      MergedSources(WarmCmp(uc), lists, out, k);
    }
  }

  lemma TimedIsSorted(p: Parsing, uc: (string, string) -> int, before: Lists, after: Lists)
    requires Timed(p, before, after)
    ensures AllSorted(WarmCmp(uc), after)
  {
  }

  /** The timing and merging half of the prepass: all that was collected, in order. */
  method MergeCollected(p: Parsing, dir: seq<LogFile>, uc: (string, string) -> int, keys: seq<string>, buffers: Lists,
                        target: nat, ghost cap: nat)
    returns (logs: seq<Item>)
    requires IsCollation(uc) && keys == TypeKeys(dir) && (forall k :: k in keys <==> k in buffers) && Total(keys, buffers) <= target
    requires forall k :: k in buffers ==> HoldsNewest(p, OrderedFiles(dir, k), buffers[k]) && |buffers[k]| <= cap
    ensures IsWarm(p, dir, logs) && |logs| == Total(keys, buffers)
    ensures forall k :: k in keys ==> SourcesOfType(logs, k) == SourcesOf(buffers[k]) && |SourcesOfType(logs, k)| <= cap
  {
    hide Timed, IsCollation, WarmCmp, TypeKeys, Total, HoldsNewest, SourcesOfType, IsMerge, AllSorted, IsWarm, OrderedFiles;
    var lists := TimeBuffers(p, keys, buffers);
    TotalOfTimed(p, keys, buffers, lists);
    WarmGoodOrder(p, uc, buffers, lists);
    TimedKeys(p, buffers, lists);
    logs := MergeWarm(uc, keys, lists, target);
    WarmFacts(p, dir, uc, buffers, lists, logs, cap);
    MergeLength(uc, keys, lists, logs);
  }

  lemma NothingToWarm(p: Parsing, dir: seq<LogFile>, cap: nat)
    requires TypeKeys(dir) == []
    ensures IsWarm(p, dir, []) && Complete(p, dir, []) && Supply(p, TypeKeys(dir), FilesByType(dir), cap) == 0
  {
  }

  lemma WarmIsComplete(p: Parsing, dir: seq<LogFile>, buffers: Lists, logs: seq<Item>)
    requires IsWarm(p, dir, logs) && forall k :: k in TypeKeys(dir) ==> k in buffers
    requires forall k :: k in TypeKeys(dir) ==> SourcesOfType(logs, k) == SourcesOf(buffers[k]) == LinesOfType(p, dir, k)
    ensures Complete(p, dir, logs)
  {
  }

  /** The prepass, not aborted. The warm list has exactly the target or all the types can give under the
      cap. It reports that every type ran out if and only if the target is not met and every type is below the
      cap; the list is then complete. */
  method WarmupTailPrepass(p: Parsing, dir: seq<LogFile>, uc: (string, string) -> int, chunkSize: nat, threshold: int, limit: Option<int>)
    returns (logs: seq<Item>, fullyCovered: bool)
    requires IsCollation(uc) && chunkSize >= 1 && threshold <= MAX_SAFE_INTEGER
    ensures IsWarm(p, dir, logs)
    ensures |logs| == Min(Max(1, threshold), Supply(p, TypeKeys(dir), FilesByType(dir), CapOf(limit)))
    ensures forall k :: k in TypeKeys(dir) ==> |SourcesOfType(logs, k)| <= CapOf(limit)
    ensures fullyCovered ==> Complete(p, dir, logs)
    ensures fullyCovered <==>
              |logs| < Max(1, threshold) && forall k :: k in TypeKeys(dir) ==> |LinesOfType(p, dir, k)| < CapOf(limit)
  {
    hide IsCollation, TypeKeys, Supply, Total, CapOf, HoldsNewest, SourcesOfType, ValidLinesOf, IsWarm, Complete, OrderedFiles, FilesByType;
    var target := Max(1, threshold);
    var keys := TypeKeys(dir);
    if |keys| == 0 {
      NothingToWarm(p, dir, CapOf(limit));
      return [], true;
    }
    var files := FilesByType(dir);
    var buffers, total, covered := Collect(p, keys, files, chunkSize, target, limit);
    logs := MergeCollected(p, dir, uc, keys, buffers, target, CapOf(limit));
    if covered {
      WarmIsComplete(p, dir, buffers, logs);
    }
    fullyCovered := covered;
  }

  lemma TimedKeys(p: Parsing, before: Lists, after: Lists)
    requires Timed(p, before, after)
    ensures forall k :: k in before <==> k in after
  {
  }

  /** A merge is as long as its lists together. */
  lemma MergeLength(uc: (string, string) -> int, keys: seq<string>, lists: Lists, out: seq<Item>)
    requires IsCollation(uc) && AllSorted(WarmCmp(uc), lists) && IsMerge(WarmCmp(uc), lists, out)
    requires Distinct(keys) && forall k :: k in keys <==> k in lists
    ensures |out| == Total(keys, lists)
  {
    WarmCmpOrders(uc);
    MergedTypes(WarmCmp(uc), lists, out);
    hide SourcesOfType, IsMerge, WarmCmp, AllSorted, Total, PooledList;
    PooledListIsAll(out, keys);
    assert |multiset(SourcesOf(EntriesOf(out)))| == |out|;
    PooledLength(uc, keys, lists, out);
  }

  lemma {:induction false} PooledLength(uc: (string, string) -> int, keys: seq<string>, lists: Lists, out: seq<Item>)
    requires GoodOrder(WarmCmp(uc), lists) && IsMerge(WarmCmp(uc), lists, out)
    requires forall i :: 0 <= i < |keys| ==> keys[i] in lists
    ensures |PooledList(out, keys)| == Total(keys, lists)
    decreases |keys|
  {
    if keys != [] {
      hide GoodOrder, IsMerge;
      PooledLength(uc, keys[1..], lists, out);
      MergeOfType(WarmCmp(uc), lists, out, keys[0]);
      assert |SourcesOfType(out, keys[0])| == |lists[keys[0]]|;
    }
  }

  // ---------- the disk merge ----------

  /** The per-type pass over all types. */
  method SortTypes(p: Parsing, dir: seq<LogFile>, chunkSize: nat) returns (lists: Lists)
    requires chunkSize >= 1
    ensures forall k :: k in lists <==> k in TypeKeys(dir)
    ensures forall k :: k in lists ==> SourcesOf(lists[k]) == LinesOfType(p, dir, k)
    ensures forall k :: k in lists ==> NonIncreasing(TimesOf(lists[k])) && Placed(lists[k])
  {
    hide NonIncreasing, Placed, ValidLinesOf, OrderedFiles;
    var keys := TypeKeys(dir);
    lists := map[];
    for i := 0 to |keys|
      invariant forall k :: k in lists <==> k in keys[..i]
      invariant forall k :: k in lists ==> SourcesOf(lists[k]) == LinesOfType(p, dir, k)
      invariant forall k :: k in lists ==> NonIncreasing(TimesOf(lists[k])) && Placed(lists[k])
    {
      var list := SortType(p, OrderedFiles(dir, keys[i]), chunkSize);
      assert keys[..i + 1] == keys[..i] + [keys[i]];
      lists := lists[keys[i] := list];
    }
    assert keys[..|keys|] == keys;
  }

  lemma ListsAreSorted(lc: (string, string) -> int, lists: Lists)
    requires forall k :: k in lists ==> NonIncreasing(TimesOf(lists[k])) && Placed(lists[k])
    ensures AllSorted(MergeCmp(lc), lists)
  {
    hide MergeCmp, Placed, NonIncreasing, Sorted;
    forall k | k in lists
      ensures Sorted(MergeCmp(lc), ItemsOf(lists, k))
    {
      PlacedIsSorted(lc, k, lists[k]);
    }
  }

  lemma DiskMergeFacts(p: Parsing, dir: seq<LogFile>, lc: (string, string) -> int, lists: Lists, merged: seq<Item>)
    requires IsCollation(lc) && AllSorted(MergeCmp(lc), lists) && IsMerge(MergeCmp(lc), lists, merged)
    requires forall k :: k in lists <==> k in TypeKeys(dir)
    requires forall k :: k in lists ==> SourcesOf(lists[k]) == LinesOfType(p, dir, k)
    ensures Complete(p, dir, merged)
    ensures NonIncreasing(TimesOf(EntriesOf(merged)))
  {
    MergeIsFaithful(lc, lists, merged);
  }

  /** The disk merge, not aborted: the batches are a complete list whose times never rise. */
  method MergeToDisk(p: Parsing, dir: seq<LogFile>, lc: (string, string) -> int, chunkSize: nat, prefetch: nat, batchSize: int)
    returns (batches: seq<seq<LogEntry>>, merged: seq<Item>)
    requires IsCollation(lc) && chunkSize >= 1 && prefetch >= 1
    ensures Complete(p, dir, merged)
    ensures NonIncreasing(TimesOf(EntriesOf(merged)))
    ensures Flatten(batches) == EntriesOf(merged) && CutInto(batches, Max(1, batchSize))
  {
    hide Complete, AllSorted, IsMerge, MergeCmp, IsCollation, LinesOfType, NonIncreasing, Placed, TypeKeys;
    var lists := SortTypes(p, dir, chunkSize);
    ListsAreSorted(lc, lists);
    batches, merged := KWayMerge(lc, TypeKeys(dir), lists, prefetch, batchSize);
    DiskMergeFacts(p, dir, lc, lists, merged);
  }

  // ---------- skipping the disk merge ----------

  ghost function CountTotal(dir: seq<LogFile>): nat {
    if dir == [] then 0 else CountTotal(dir[..|dir| - 1]) + CountOf(dir[|dir| - 1].content)
  }

  method CountTotalLinesInDir(dir: seq<LogFile>, streamSize: nat) returns (total: nat)
    requires streamSize >= 1
    ensures total == CountTotal(dir)
  {
    total := 0;
    for i := 0 to |dir|
      invariant total == CountTotal(dir[..i])
    {
      assert dir[..i + 1] == dir[..i] + [dir[i]];
      CountSnoc(dir[..i], dir[i]);
      var chunks := StreamOf(dir[i].content, streamSize);
      var lines := CountLinesInFile(chunks);
      total := total + lines;
    }
    assert dir[..|dir|] == dir;
  }

  lemma FileWithinCount(p: Parsing, f: LogFile)
    ensures |ValidLinesOf(p, [f])| <= CountOf(f.content)
  {
    hide Kept, Reverse, CountOf, FileLines;
    ValidLinesOfOne(p, f);
    KeptIsNoLonger(p, f, Reverse(FileLines(f.content)));
    CountBoundsLines(f.content);
  }

  lemma CountSnoc(front: seq<LogFile>, f: LogFile)
    ensures CountTotal(front + [f]) == CountTotal(front) + CountOf(f.content)
  {
    assert (front + [f])[..|front|] == front;
  }

  lemma {:induction false} CountBoundsValid(p: Parsing, dir: seq<LogFile>)
    ensures |ValidLinesOf(p, dir)| <= CountTotal(dir)
  {
    if dir == [] {
      assert ValidLinesOf(p, dir) == [];
    } else {
      hide ValidLinesOf, CountOf, CountTotal;
      var front, f := dir[..|dir| - 1], dir[|dir| - 1];
      assert dir == front + [f];
      CountBoundsValid(p, front);
      ValidLinesAppend(p, front, [f]);
      FileWithinCount(p, f);
      CountSnoc(front, f);
    }
  }

  lemma {:induction false} TypeWithinPool(p: Parsing, dir: seq<LogFile>, keys: seq<string>, i: int)
    requires 0 <= i < |keys|
    ensures |LinesOfType(p, dir, keys[i])| <= |Pooled(p, dir, keys)|
    decreases |keys|
  {
    hide LinesOfType, ValidLinesOf;
    if i == 0 {
      LinesOfTypePool(p, dir, keys[0]);
    } else {
      TypeWithinPool(p, dir, keys[1..], i - 1);
    }
  }

  lemma {:induction false} SupplyIsPool(p: Parsing, dir: seq<LogFile>, keys: seq<string>, cap: nat)
    requires forall i :: 0 <= i < |keys| ==> keys[i] in TypeKeys(dir) && |LinesOfType(p, dir, keys[i])| <= cap
    ensures Supply(p, keys, FilesByType(dir), cap) == |Pooled(p, dir, keys)|
  {
    hide ValidLinesOf, TypeKeys, OrderedFiles;
    if keys != [] {
      SupplyIsPool(p, dir, keys[1..], cap);
      LinesOfTypePool(p, dir, keys[0]);
      assert LinesOfType(p, dir, keys[0]) == ValidLinesOf(p, FilesByType(dir)[keys[0]]);
    }
  }

  lemma {:induction false} SupplyOfOne(p: Parsing, dir: seq<LogFile>, keys: seq<string>, cap: nat, i: int)
    requires 0 <= i < |keys| && forall j :: 0 <= j < |keys| ==> keys[j] in TypeKeys(dir)
    ensures Supply(p, keys, FilesByType(dir), cap) >= Min(cap, |LinesOfType(p, dir, keys[i])|)
    decreases |keys|
  {
    hide ValidLinesOf, TypeKeys, OrderedFiles;
    if i > 0 {
      SupplyOfOne(p, dir, keys[1..], cap, i - 1);
    } else {
      assert LinesOfType(p, dir, keys[0]) == ValidLinesOf(p, FilesByType(dir)[keys[0]]);
    }
  }

  /** Without a limit the types can give every valid line, as far as a target can ask. */
  lemma UncappedSupply(p: Parsing, dir: seq<LogFile>, threshold: int)
    requires threshold <= MAX_SAFE_INTEGER
    ensures var target, supply := Max(1, threshold), Supply(p, TypeKeys(dir), FilesByType(dir), CapOf(None));
            && Min(target, supply) == Min(target, |ValidLinesOf(p, dir)|)
            && (supply < target ==> forall k :: k in TypeKeys(dir) ==> |LinesOfType(p, dir, k)| < CapOf(None))
  {
    var keys, cap := TypeKeys(dir), CapOf(None);
    hide ValidLinesOf, TypeKeys, Pooled, Supply, LinesOfType;
    PooledIsAll(p, dir);
    assert |Pooled(p, dir, keys)| == |ValidLinesOf(p, dir)|;
    forall i | 0 <= i < |keys|
      ensures |LinesOfType(p, dir, keys[i])| <= |ValidLinesOf(p, dir)|
      ensures Supply(p, keys, FilesByType(dir), cap) >= Min(cap, |LinesOfType(p, dir, keys[i])|)
    {
      TypeWithinPool(p, dir, keys, i);
      SupplyOfOne(p, dir, keys, cap, i);
    }
    if forall i :: 0 <= i < |keys| ==> |LinesOfType(p, dir, keys[i])| <= cap {
      SupplyIsPool(p, dir, keys, cap);
    }
  }

  lemma {:induction false} PrefixesFill(p: Parsing, dir: seq<LogFile>, logs: seq<Item>, keys: seq<string>)
    requires forall i :: 0 <= i < |keys| ==> SourcesOfType(logs, keys[i]) <= LinesOfType(p, dir, keys[i])
    ensures |PooledList(logs, keys)| <= |Pooled(p, dir, keys)|
    ensures |PooledList(logs, keys)| == |Pooled(p, dir, keys)| ==>
              forall i :: 0 <= i < |keys| ==> SourcesOfType(logs, keys[i]) == LinesOfType(p, dir, keys[i])
  {
    hide SourcesOfType, LinesOfType, ValidLinesOf;
    if keys != [] {
      PrefixesFill(p, dir, logs, keys[1..]);
      LinesOfTypePool(p, dir, keys[0]);
      SameLength(p, dir, keys[0]);
    }
  }

  lemma SameLength(p: Parsing, dir: seq<LogFile>, k: string)
    ensures |LinesOfType(p, dir, k)| == |multiset(ValidLinesOf(p, FilesOf(dir, k)))|
  {
    hide LinesOfType, ValidLinesOf;
    LinesOfTypePool(p, dir, k);
    assert |multiset(LinesOfType(p, dir, k))| == |LinesOfType(p, dir, k)|;
  }

  /** An uncapped warm list of a directory that fits the threshold is complete. */
  lemma FittingWarmIsComplete(p: Parsing, dir: seq<LogFile>, logs: seq<Item>, threshold: int)
    requires IsWarm(p, dir, logs) && threshold <= MAX_SAFE_INTEGER
    requires |logs| == Min(Max(1, threshold), Supply(p, TypeKeys(dir), FilesByType(dir), CapOf(None)))
    requires |ValidLinesOf(p, dir)| <= threshold
    ensures Complete(p, dir, logs)
  {
    var keys := TypeKeys(dir);
    hide ValidLinesOf, TypeKeys, Pooled, PooledList, Supply, LinesOfType, SourcesOfType;
    PooledIsAll(p, dir);
    assert |Pooled(p, dir, keys)| == |ValidLinesOf(p, dir)|;
    forall i | 0 <= i < |keys|
      ensures |LinesOfType(p, dir, keys[i])| <= CapOf(None)
    {
      TypeWithinPool(p, dir, keys, i);
    }
    SupplyIsPool(p, dir, keys, CapOf(None));
    PooledListIsAll(logs, keys);
    assert |multiset(SourcesOf(EntriesOf(logs)))| == |logs|;
    PrefixesFill(p, dir, logs, keys);
  }

  /** Whether a session skips the disk merge: by its count if it has one, else if the valid lines stay below what
      the warmup aims at, so that it notices the end of every type. */
  ghost predicate Skips(p: Parsing, dir: seq<LogFile>, threshold: int, counted: bool) {
    if counted then CountTotal(dir) <= threshold
    else |ValidLinesOf(p, dir)| <= threshold && |ValidLinesOf(p, dir)| < Max(1, threshold)
  }

  /** The skip rule: by the line count if there is one, or by a warmup that saw every type run out. */
  predicate ShouldSkip(preEstimate: Option<nat>, threshold: int, warmCovered: bool, warmCount: nat) {
    || (preEstimate.Some? && preEstimate.value <= threshold)
    || (warmCovered && warmCount <= threshold)
  }

  lemma NoneOfType(k: string)
    ensures SourcesOfType([], k) == []
  {
  }

  lemma NoLinesOfType(p: Parsing, dir: seq<LogFile>, k: string)
    requires ValidLinesOf(p, dir) == [] && k in TypeKeys(dir)
    ensures LinesOfType(p, dir, k) == []
  {
    hide LinesOfType, ValidLinesOf, Pooled, TypeKeys;
    PooledIsAll(p, dir);
    var i :| 0 <= i < |TypeKeys(dir)| && TypeKeys(dir)[i] == k;
    TypeWithinPool(p, dir, TypeKeys(dir), i);
  }

  lemma EmptyIsComplete(p: Parsing, dir: seq<LogFile>)
    ensures Complete(p, dir, []) <==> ValidLinesOf(p, dir) == []
  {
    hide LinesOfType, ValidLinesOf, SourcesOfType, TypeKeys;
    if Complete(p, dir, []) {
      CompleteLength(p, dir, []);
    }
    if ValidLinesOf(p, dir) == [] {
      forall k | k in TypeKeys(dir)
        ensures SourcesOfType([], k) == LinesOfType(p, dir, k)
      {
        NoneOfType(k);
        NoLinesOfType(p, dir, k);
      }
    }
  }

  /** One line in one file, counted and under the threshold: without a warmup nothing of it is shown. */
  lemma UnwarmedSkipLosesALine(p: Parsing)
    ensures var dir := [LogFile("a.log", "a", -1, "x", false)]; CountTotal(dir) <= 1 && !Complete(p, dir, [])
  {
    var f := LogFile("a.log", "a", -1, "x", false);
    OnlyLine("x");
    assert FileLines("x") == ["x"];
    assert Reverse(["x"]) == ["x"];
    assert ["x"][1..] == [];
    assert Kept(p, f, []) == [];
    assert ValidLines(p, f) == [Source("a.log", p.text(f, "x"))];
    ValidLinesOfOne(p, f);
    EmptyIsComplete(p, [f]);
    assert [f][..0] == [];
    assert CountTotal([f]) == CountOf("x") == 1;
  }

  /** A whole session: the manager's warmup if it is on (`warmed`), then the disk merge unless it is skipped.
      `counted` says whether the line count succeeded. `warm` is what the manager's warmup gave, `batches` what
      the disk merge handed over. What is shown is complete whichever way it goes, except
      exactly when the count alone decides to skip, no warmup ran before, and there is something to show. */
  method RunSession(p: Parsing, dir: seq<LogFile>, lc: (string, string) -> int, uc: (string, string) -> int,
                    chunkSize: nat, threshold: int, prefetch: nat, batchSize: int, warmed: bool, counted: bool)
    returns (skipped: bool, warm: seq<Item>, batches: seq<seq<LogEntry>>, shown: seq<Item>)
    requires IsCollation(lc) && IsCollation(uc) && chunkSize >= 1 && prefetch >= 1 && threshold <= MAX_SAFE_INTEGER
    ensures Complete(p, dir, shown) <==>
              warmed || !counted || CountTotal(dir) > threshold || ValidLinesOf(p, dir) == []
    ensures NonIncreasing(TimesOf(EntriesOf(shown)))
    ensures skipped <==> Skips(p, dir, threshold, counted)
    ensures skipped && counted && !warmed ==> shown == []
    ensures if warmed then skipped ==> shown == warm else warm == []
    ensures !skipped ==> Flatten(batches) == EntriesOf(shown)
  {
    hide Complete, IsCollation, IsWarm, Supply, CountTotal, CapOf, MAX_SAFE_INTEGER, ValidLinesOf, EntriesOf, Flatten;
    warm, batches := [], [];
    if warmed {
      var covered;
      warm, covered := WarmupTailPrepass(p, dir, uc, chunkSize, threshold, None);
    }
    var preEstimate: Option<nat> := None;
    if counted {
      var total := CountTotalLinesInDir(dir, chunkSize);
      preEstimate := Some(total);
      CountBoundsValid(p, dir);
    }
    var warmLogs, warmCovered := [], false;
    if preEstimate.None? {
      warmLogs, warmCovered := WarmupTailPrepass(p, dir, uc, chunkSize, threshold, None);
      UncappedSupply(p, dir, threshold);
      WarmFalls(p, dir, warmLogs);
    }
    skipped := ShouldSkip(preEstimate, threshold, warmCovered, |warmLogs|);
    if skipped {
      EmptyIsComplete(p, dir);
      if warmed {
        FittingWarmIsComplete(p, dir, warm, threshold);
        WarmFalls(p, dir, warm);
        return skipped, warm, batches, warm;
      }
      return skipped, warm, batches, warmLogs;
    }
    batches, shown := MergeToDisk(p, dir, lc, chunkSize, prefetch, batchSize);
  }

  lemma CompleteLength(p: Parsing, dir: seq<LogFile>, list: seq<Item>)
    requires Complete(p, dir, list)
    ensures |list| == |ValidLinesOf(p, dir)|
  {
    CompleteHoldsAllOnce(p, dir, list);
    assert |multiset(SourcesOf(EntriesOf(list)))| == |list|;
    assert |multiset(ValidLinesOf(p, dir))| == |ValidLinesOf(p, dir)|;
  }

  lemma WarmFalls(p: Parsing, dir: seq<LogFile>, list: seq<Item>)
    requires IsWarm(p, dir, list)
    ensures NonIncreasing(TimesOf(EntriesOf(list)))
  {
  }
}
