/** The warmup prepass: a fair split of a target over the log types, and a redistribution of what short
    types leave over, under a cap for each type. */
module Warmup {
  import opened Prelude
  import opened Entries
  import opened Directory
  import opened TypePass
  import opened TailWalking
  import opened Merging

  const MAX_SAFE_INTEGER := 9007199254740991

  /** The cap as the room computation sees it: no limit stands for the greatest safe integer. */
  function CapOf(limit: Option<int>): (c: nat)
    ensures c >= 1
  {
    if limit.None? then MAX_SAFE_INTEGER else Max(1, limit.value)
  }

  // ---------- sums over the types ----------

  function Total(keys: seq<string>, buffers: Lists): nat
    requires forall i :: 0 <= i < |keys| ==> keys[i] in buffers
  {
    if keys == [] then 0 else |buffers[keys[0]]| + Total(keys[1..], buffers)
  }

  /** What the types can give at most: each its valid lines, but no more than the cap. */
  function Supply(p: Parsing, keys: seq<string>, files: map<string, seq<LogFile>>, cap: nat): nat
    requires forall i :: 0 <= i < |keys| ==> keys[i] in files
  {
    if keys == [] then 0
    else Min(cap, |ValidLinesOf(p, files[keys[0]])|) + Supply(p, keys[1..], files, cap)
  }

  lemma {:induction false} TotalAfter(keys: seq<string>, buffers: Lists, k: string, longer: seq<LogEntry>)
    requires Distinct(keys) && (forall i :: 0 <= i < |keys| ==> keys[i] in buffers) && k in buffers
    ensures Total(keys, buffers[k := longer]) == Total(keys, buffers) + if k in keys then |longer| - |buffers[k]| else 0
  {
    if keys != [] {
      TotalAfter(keys[1..], buffers, k, longer);
      assert k in keys <==> k == keys[0] || k in keys[1..];
    }
  }

  lemma {:induction false} TotalOfNone(keys: seq<string>, buffers: Lists)
    requires forall i :: 0 <= i < |keys| ==> keys[i] in buffers && buffers[keys[i]] == []
    ensures Total(keys, buffers) == 0
  {
    if keys != [] {
      TotalOfNone(keys[1..], buffers);
    }
  }

  /** Buffers within the supply type by type are within it in total, and reach it only all together. */
  lemma {:induction false} TotalWithinSupply(p: Parsing, keys: seq<string>, files: map<string, seq<LogFile>>, buffers: Lists, cap: nat)
    requires forall i :: 0 <= i < |keys| ==> keys[i] in files && keys[i] in buffers
    requires forall i :: 0 <= i < |keys| ==> |buffers[keys[i]]| <= Min(cap, |ValidLinesOf(p, files[keys[i]])|)
    ensures Total(keys, buffers) <= Supply(p, keys, files, cap)
    ensures Total(keys, buffers) == Supply(p, keys, files, cap) <==>
            forall i :: 0 <= i < |keys| ==> |buffers[keys[i]]| == Min(cap, |ValidLinesOf(p, files[keys[i]])|)
  {
    hide ValidLinesOf;
    if keys != [] {
      TotalWithinSupply(p, keys[1..], files, buffers, cap);
      assert forall i :: 0 < i < |keys| ==> keys[i] == keys[1..][i - 1];
    }
  }

  // ---------- the fair split ----------

  function SumOf(alloc: seq<nat>): nat {
    if alloc == [] then 0 else SumOf(alloc[..|alloc| - 1]) + alloc[|alloc| - 1]
  }

  /** A share before the cap: an equal part, and one more for each of the first types. */
  function Want(base: nat, rem: nat, i: nat): nat {
    base + if i < rem then 1 else 0
  }

  lemma {:induction false} SharesSum(base: nat, rem: nat, alloc: seq<nat>)
    requires forall i :: 0 <= i < |alloc| ==> alloc[i] <= Want(base, rem, i)
    ensures SumOf(alloc) <= base * |alloc| + Min(|alloc|, rem)
    ensures (forall i :: 0 <= i < |alloc| ==> alloc[i] == Want(base, rem, i)) ==>
              SumOf(alloc) == base * |alloc| + Min(|alloc|, rem)
  {
    if alloc != [] {
      var n := |alloc| - 1;
      SharesSum(base, rem, alloc[..n]);
      assert base * (n + 1) == base * n + base;
    }
  }

  method Shares(base: nat, remainder: nat, types: nat, limit: Option<int>) returns (alloc: seq<nat>)
    requires base + 1 <= MAX_SAFE_INTEGER || (base <= MAX_SAFE_INTEGER && remainder == 0)
    ensures |alloc| == types
    ensures forall j :: 0 <= j < types ==> alloc[j] == Min(Want(base, remainder, j), CapOf(limit))
  {
    var rem := remainder;
    alloc := [];
    for i := 0 to types
      invariant |alloc| == i && rem == Max(0, remainder - i)
      invariant forall j :: 0 <= j < i ==> alloc[j] == Min(Want(base, remainder, j), CapOf(limit))
    {
      var want := base + if rem > 0 then 1 else 0;
      if rem > 0 {
        rem := rem - 1;
      }
      alloc := alloc + [if limit.None? then want else Min(want, Max(1, limit.value))];
    }
  }

  /** A share for each type: equal shares of the target, the remainder one by one to the first types, and
      no share above the limit. The shares do not exceed the target, and make it up if no limit is met. */
  method Allocate(target: nat, types: nat, limit: Option<int>) returns (alloc: seq<nat>)
    requires types >= 1 && target <= MAX_SAFE_INTEGER
    ensures |alloc| == types
    ensures forall i :: 0 <= i < types ==> alloc[i] <= CapOf(limit)
    ensures forall i, j :: 0 <= i < j < types ==> alloc[j] <= alloc[i] <= alloc[j] + 1
    ensures SumOf(alloc) <= target
    ensures (forall i :: 0 <= i < types ==> alloc[i] < CapOf(limit)) ==> SumOf(alloc) == target
  {
    hide Want, SumOf, CapOf;
    ShareFits(target, types);
    var base, rem := target / types, target % types;
    alloc := Shares(base, rem, types, limit);
    FairSplit(target, base, rem, limit, alloc);
  }

  lemma FairSplit(target: nat, base: nat, rem: nat, limit: Option<int>, alloc: seq<nat>)
    requires base * |alloc| + rem == target && rem < |alloc|
    requires forall j :: 0 <= j < |alloc| ==> alloc[j] == Min(Want(base, rem, j), CapOf(limit))
    ensures forall i :: 0 <= i < |alloc| ==> alloc[i] <= CapOf(limit)
    ensures forall i, j :: 0 <= i < j < |alloc| ==> alloc[j] <= alloc[i] <= alloc[j] + 1
    ensures SumOf(alloc) <= target
    ensures (forall i :: 0 <= i < |alloc| ==> alloc[i] < CapOf(limit)) ==> SumOf(alloc) == target
  {
    hide SumOf, CapOf;
    SharesSum(base, rem, alloc);
  }

  lemma ShareFits(target: nat, types: nat)
    requires types >= 1
    ensures target / types + (if target % types > 0 then 1 else 0) <= target
  {
    var q, r := target / types, target % types;
    assert target == q * types + r;
    assert q * types >= q by { MulAtLeast(q, types); }
  }

  lemma MulAtLeast(q: nat, n: nat)
    requires n >= 1
    ensures q * n >= q
  {
  }

  // ---------- collecting ----------

  type Walkers = map<string, TypeTailWalker>

  ghost predicate Apart(keys: seq<string>, walkers: Walkers)
    requires forall k :: k in keys ==> k in walkers
    reads walkers.Values
  {
    forall j, k :: j in keys && k in keys && j != k ==>
      walkers[j] != walkers[k] && (walkers[j].rr == null || walkers[j].rr != walkers[k].rr)
  }

  /** A type's valid lines are those in its buffer followed by those its walker has yet to hand out. The end is
      noticed only by a read that comes up short, so a full buffer has not noticed it. */
  ghost predicate Halfway(p: Parsing, files: seq<LogFile>, w: TypeTailWalker, buffer: seq<LogEntry>, cap: nat)
    reads w, w.rr
  {
    && w.Valid()
    && ValidLinesOf(p, files) == SourcesOf(buffer) + ValidTail(p, w.Remaining())
    && |buffer| <= cap
    && (w.exhausted ==> |buffer| < cap)
  }

  ghost predicate Collecting(p: Parsing, keys: seq<string>, files: map<string, seq<LogFile>>, walkers: Walkers, buffers: Lists, cap: nat)
    reads walkers.Values, set w | w in walkers.Values :: w.rr
  {
    && (forall k :: k in keys ==> k in files && k in walkers && k in buffers)
    && Apart(keys, walkers)
    && forall k :: k in keys ==> Halfway(p, files[k], walkers[k], buffers[k], cap)
  }

  lemma HalfwayBounds(p: Parsing, files: seq<LogFile>, w: TypeTailWalker, buffer: seq<LogEntry>, cap: nat)
    requires Halfway(p, files, w, buffer, cap)
    ensures |buffer| <= Min(cap, |ValidLinesOf(p, files)|)
    ensures w.exhausted ==> SourcesOf(buffer) == ValidLinesOf(p, files) && |ValidLinesOf(p, files)| < cap
  {
  }

  /** Reads up to `need` more valid lines of one type into its buffer. */
  method TakeFrom(p: Parsing, keys: seq<string>, files: map<string, seq<LogFile>>, walkers: Walkers, buffers: Lists,
                  prevs: map<string, Option<int>>, cap: nat, k: string, need: nat)
    returns (now: Lists, prevsNow: map<string, Option<int>>, got: nat)
    requires Collecting(p, keys, files, walkers, buffers, cap) && Distinct(keys)
    requires k in keys && k in prevs && |buffers[k]| + need <= cap
    modifies walkers[k], walkers[k].rr
    ensures Collecting(p, keys, files, walkers, now, cap)
    ensures prevsNow.Keys == prevs.Keys && now.Keys == buffers.Keys
    ensures got <= need && (got < need ==> walkers[k].exhausted)
    ensures !old(walkers[k].exhausted) && walkers[k].exhausted ==> got < need
    ensures forall j :: j in keys && j != k ==> walkers[j].exhausted == old(walkers[j].exhausted) && now[j] == buffers[j]
    ensures old(walkers[k].exhausted) ==> walkers[k].exhausted
    ensures |now[k]| == |buffers[k]| + got
    ensures Total(keys, now) == Total(keys, buffers) + got
    ensures walkers[k].rr == null || walkers[k].rr == old(walkers[k].rr) || fresh(walkers[k].rr)
  {
    hide ValidLinesOf, ValidTail, SourcesOf, Total, TypeTailWalker.Valid, TypeTailWalker.Remaining;
    var longer, prevTs;
    assert Halfway(p, files[k], walkers[k], buffers[k], cap);
    longer, prevTs, got := BatchRead(p, walkers[k], buffers[k], prevs[k], need);
    now, prevsNow := buffers[k := longer], prevs[k := prevTs];
    TotalAfter(keys, buffers, k, longer);
    assert Halfway(p, files[k], walkers[k], longer, cap);
    forall j | j in keys && j != k
      ensures Halfway(p, files[j], walkers[j], now[j], cap)
    {
      assert old(Halfway(p, files[j], walkers[j], buffers[j], cap));
    }
  }

  /** The walkers and their open readers are this run's own. */
  ghost predicate OwnedBy(keys: seq<string>, walkers: Walkers) {
    forall k :: k in walkers <==> k in keys
  }

  lemma SumSnoc(alloc: seq<nat>, i: nat)
    requires i < |alloc|
    ensures SumOf(alloc[..i + 1]) == SumOf(alloc[..i]) + alloc[i]
  {
    assert alloc[..i + 1][..i] == alloc[..i];
  }

  lemma SumOfNone(alloc: seq<nat>)
    ensures SumOf(alloc[..0]) == 0
  {
  }

  /** The first `i` types are read up to their shares, the others not at all; a type that has noticed its end has
      got less than its share. */
  ghost predicate SharedSoFar(keys: seq<string>, walkers: Walkers, buffers: Lists, alloc: seq<nat>, i: int, total: nat)
    requires (forall k :: k in keys ==> k in walkers && k in buffers) && 0 <= i <= |keys| == |alloc|
    reads walkers.Values
  {
    && total == Total(keys, buffers) <= SumOf(alloc[..i])
    && (forall j :: i <= j < |keys| ==> buffers[keys[j]] == [] && !walkers[keys[j]].exhausted)
    && (forall j :: 0 <= j < i && walkers[keys[j]].exhausted ==> total < SumOf(alloc[..i]))
  }

  method Share(p: Parsing, keys: seq<string>, files: map<string, seq<LogFile>>, walkers: Walkers, buffers: Lists,
               prevs: map<string, Option<int>>, cap: nat, alloc: seq<nat>, i: nat, total: nat)
    returns (now: Lists, prevsNow: map<string, Option<int>>, got: nat)
    requires Collecting(p, keys, files, walkers, buffers, cap) && Distinct(keys) && OwnedBy(keys, walkers)
    requires i < |keys| == |alloc| && alloc[i] <= cap && keys[i] in prevs
    requires SharedSoFar(keys, walkers, buffers, alloc, i, total)
    modifies walkers[keys[i]], walkers[keys[i]].rr
    ensures Collecting(p, keys, files, walkers, now, cap)
    ensures prevsNow.Keys == prevs.Keys && now.Keys == buffers.Keys
    ensures var w := walkers[keys[i]]; w.rr == null || w.rr == old(w.rr) || fresh(w.rr)
    ensures SharedSoFar(keys, walkers, now, alloc, i + 1, total + got)
  {
    hide Total, SumOf, Halfway, Apart;
    now, prevsNow, got := TakeFrom(p, keys, files, walkers, buffers, prevs, cap, keys[i], alloc[i]);
    SumSnoc(alloc, i);
  }

  /** First round: every type is read up to its share. */
  method FirstRound(p: Parsing, keys: seq<string>, files: map<string, seq<LogFile>>, walkers: Walkers, start: Lists,
                    startPrevs: map<string, Option<int>>, cap: nat, alloc: seq<nat>)
    returns (buffers: Lists, prevs: map<string, Option<int>>, total: nat)
    requires Collecting(p, keys, files, walkers, start, cap) && Distinct(keys) && OwnedBy(keys, walkers)
    requires (forall k :: k in keys ==> k in startPrevs && start[k] == []) && |alloc| == |keys|
    requires (forall i :: 0 <= i < |alloc| ==> alloc[i] <= cap) && forall k :: k in keys ==> !walkers[k].exhausted
    modifies walkers.Values, set w | w in walkers.Values :: w.rr
    ensures Collecting(p, keys, files, walkers, buffers, cap)
    ensures prevs.Keys == startPrevs.Keys && buffers.Keys == start.Keys
    ensures total == Total(keys, buffers) <= SumOf(alloc)
    ensures forall k :: k in keys && walkers[k].exhausted ==> total < SumOf(alloc)
    ensures ReadersKept(walkers)
  {
    hide Total, SumOf, Halfway, Apart;
    buffers, prevs, total := start, startPrevs, 0;
    TotalOfNone(keys, buffers);
    SumOfNone(alloc);
    assert SharedSoFar(keys, walkers, buffers, alloc, 0, 0);
    assert forall k :: k in keys ==> k in start;
    hide SharedSoFar, Collecting, Distinct;
    for i := 0 to |keys|
      invariant Collecting(p, keys, files, walkers, buffers, cap)
      invariant prevs.Keys == startPrevs.Keys && buffers.Keys == start.Keys
      invariant SharedSoFar(keys, walkers, buffers, alloc, i, total)
      invariant ReadersKept(walkers)
    {
      assert walkers[keys[i]] in walkers.Values;
      var got;
      buffers, prevs, got := Share(p, keys, files, walkers, buffers, prevs, cap, alloc, i, total);
      total := total + got;
    }
    AllShared(keys, walkers, buffers, alloc, total);
  }

  lemma AllShared(keys: seq<string>, walkers: Walkers, buffers: Lists, alloc: seq<nat>, total: nat)
    requires (forall k :: k in keys ==> k in walkers && k in buffers) && |keys| == |alloc|
    requires SharedSoFar(keys, walkers, buffers, alloc, |keys|, total)
    ensures total == Total(keys, buffers) <= SumOf(alloc)
    ensures forall k :: k in keys && walkers[k].exhausted ==> total < SumOf(alloc)
  {
    assert alloc[..|keys|] == alloc;
  }

  datatype Slot = Slot(key: string, room: nat)

  /** A type that has not run out, with its room under the cap. */
  ghost predicate IsOpen(slot: Slot, keys: seq<string>, walkers: Walkers, buffers: Lists, cap: nat)
    requires forall k :: k in keys ==> k in walkers && k in buffers
    reads walkers.Values
  {
    slot.key in keys && !walkers[slot.key].exhausted && slot.room == cap - |buffers[slot.key]| > 0
  }

  ghost predicate NoneOpen(keys: seq<string>, walkers: Walkers, buffers: Lists, cap: nat)
    requires forall k :: k in keys ==> k in walkers && k in buffers
    reads walkers.Values
  {
    forall k :: k in keys ==> walkers[k].exhausted || |buffers[k]| >= cap
  }

  method Slots(keys: seq<string>, walkers: Walkers, buffers: Lists, cap: nat) returns (slots: seq<Slot>)
    requires forall k :: k in keys ==> k in walkers && k in buffers
    ensures forall i :: 0 <= i < |slots| ==> IsOpen(slots[i], keys, walkers, buffers, cap)
    ensures slots == [] ==> NoneOpen(keys, walkers, buffers, cap)
  {
    slots := [];
    for n := 0 to |keys|
      invariant forall i :: 0 <= i < |slots| ==> IsOpen(slots[i], keys, walkers, buffers, cap)
      invariant slots == [] ==> forall i :: 0 <= i < n ==> walkers[keys[i]].exhausted || |buffers[keys[i]]| >= cap
    {
      var k := keys[n];
      if !walkers[k].exhausted {
        var room := Max(0, cap - |buffers[k]|);
        if room > 0 {
          slots := slots + [Slot(k, room)];
        }
      }
    }
  }

  /** Some type has not noticed its end. */
  ghost predicate SomeUnnoticed(keys: seq<string>, walkers: Walkers)
    requires forall k :: k in keys ==> k in walkers
    reads walkers.Values
  {
    exists k :: k in keys && !walkers[k].exhausted
  }

  ghost function Active(keys: seq<string>, walkers: Walkers): set<string>
    requires forall k :: k in keys ==> k in walkers
    reads walkers.Values
  {
    set k | k in keys && !walkers[k].exhausted
  }

  /** One draw of the round robin. A draw that comes up short takes its type out of play. */
  method Draw(p: Parsing, keys: seq<string>, files: map<string, seq<LogFile>>, walkers: Walkers, buffers: Lists,
              prevs: map<string, Option<int>>, cap: nat, slot: Slot, deficit: nat)
    returns (now: Lists, prevsNow: map<string, Option<int>>, got: nat)
    requires Collecting(p, keys, files, walkers, buffers, cap) && Distinct(keys) && OwnedBy(keys, walkers)
    requires IsOpen(slot, keys, walkers, buffers, cap) && slot.key in prevs && deficit > 0
    modifies walkers.Values, set w | w in walkers.Values :: w.rr
    ensures Collecting(p, keys, files, walkers, now, cap)
    ensures prevsNow.Keys == prevs.Keys && now.Keys == buffers.Keys
    ensures got <= deficit && Total(keys, now) == Total(keys, buffers) + got
    ensures got == deficit ==> SomeUnnoticed(keys, walkers)
    ensures ReadersKept(walkers)
    ensures Active(keys, walkers) < old(Active(keys, walkers)) || (Active(keys, walkers) == old(Active(keys, walkers)) && got > 0)
  {
    hide Total, Halfway;
    var k := slot.key;
    var take := Min(CHUNK, Min(slot.room, deficit));
    now, prevsNow, got := TakeFrom(p, keys, files, walkers, buffers, prevs, cap, k, take);
    assert walkers[k].exhausted ==> k in old(Active(keys, walkers)) && k !in Active(keys, walkers);
  }

  lemma CappedOrDone(p: Parsing, keys: seq<string>, files: map<string, seq<LogFile>>, walkers: Walkers, buffers: Lists, cap: nat)
    requires Collecting(p, keys, files, walkers, buffers, cap) && NoneOpen(keys, walkers, buffers, cap)
    ensures AllFull(keys, walkers, buffers, cap)
  {
  }

  lemma AllExhausted(keys: seq<string>, walkers: Walkers, buffers: Lists, cap: nat)
    requires forall k :: k in keys ==> k in walkers && k in buffers && walkers[k].exhausted
    ensures NoneOpen(keys, walkers, buffers, cap)
  {
  }

  ghost predicate AllFull(keys: seq<string>, walkers: Walkers, buffers: Lists, cap: nat)
    requires forall k :: k in keys ==> k in walkers && k in buffers
    reads walkers.Values
  {
    forall k :: k in keys ==> walkers[k].exhausted || |buffers[k]| == cap
  }

  /** The readers open now were open before or are new. */
  twostate predicate ReadersKept(walkers: Walkers)
    reads walkers.Values
  {
    forall w :: w in walkers.Values ==> w.rr == null || w.rr == old(w.rr) || fresh(w.rr)
  }

  /** The slots on offer are open, and there are none only if no type is open. */
  ghost predicate Offered(slots: seq<Slot>, keys: seq<string>, walkers: Walkers, buffers: Lists, cap: nat)
    requires forall k :: k in keys ==> k in walkers && k in buffers
    reads walkers.Values
  {
    && (forall n :: 0 <= n < |slots| ==> IsOpen(slots[n], keys, walkers, buffers, cap))
    && (slots == [] ==> NoneOpen(keys, walkers, buffers, cap))
  }

  /** One round: a draw, and the slots that are open after it. */
  method Round(p: Parsing, keys: seq<string>, files: map<string, seq<LogFile>>, walkers: Walkers, buffers: Lists,
               prevs: map<string, Option<int>>, cap: nat, slots: seq<Slot>, i: nat, deficit: nat)
    returns (now: Lists, prevsNow: map<string, Option<int>>, got: nat, slotsNow: seq<Slot>)
    requires Collecting(p, keys, files, walkers, buffers, cap) && Distinct(keys) && OwnedBy(keys, walkers)
    requires slots != [] && Offered(slots, keys, walkers, buffers, cap)
    requires (forall k :: k in keys ==> k in prevs) && deficit > 0
    modifies walkers.Values, set w | w in walkers.Values :: w.rr
    ensures Collecting(p, keys, files, walkers, now, cap)
    ensures prevsNow.Keys == prevs.Keys && now.Keys == buffers.Keys
    ensures got <= deficit && Total(keys, now) == Total(keys, buffers) + got
    ensures got == deficit ==> SomeUnnoticed(keys, walkers)
    ensures ReadersKept(walkers)
    ensures Active(keys, walkers) < old(Active(keys, walkers)) || (Active(keys, walkers) == old(Active(keys, walkers)) && got > 0)
    ensures Offered(slotsNow, keys, walkers, now, cap)
  {
    hide Total, Halfway, Active, Apart, NoneOpen, ReadersKept, SomeUnnoticed;
    var slot := slots[i % |slots|];
    assert IsOpen(slot, keys, walkers, buffers, cap);
    now, prevsNow, got := Draw(p, keys, files, walkers, buffers, prevs, cap, slot, deficit);
    slotsNow := Slots(keys, walkers, now, cap);
  }

  /** Further rounds: round robin over the types that still have lines and room, until the target is met or
      every type has run out or met the cap. */
  method Redistribute(p: Parsing, keys: seq<string>, files: map<string, seq<LogFile>>, walkers: Walkers, start: Lists,
                      startPrevs: map<string, Option<int>>, cap: nat, target: nat, startTotal: nat)
    returns (buffers: Lists, total: nat)
    requires Collecting(p, keys, files, walkers, start, cap) && Distinct(keys) && OwnedBy(keys, walkers)
    requires (forall k :: k in keys ==> k in startPrevs) && startTotal == Total(keys, start) < target
    modifies walkers.Values, set w | w in walkers.Values :: w.rr
    ensures Collecting(p, keys, files, walkers, buffers, cap) && buffers.Keys == start.Keys
    ensures total == Total(keys, buffers) <= target
    ensures if total < target then AllFull(keys, walkers, buffers, cap) else SomeUnnoticed(keys, walkers)
  {
    hide SomeUnnoticed, Total, Halfway, Active, Apart, IsOpen, NoneOpen, AllFull;
    buffers, total := start, startTotal;
    var prevs := startPrevs;
    var deficit: nat := target - total;
    var slots := Slots(keys, walkers, buffers, cap);
    var i: nat := 0;
    var lastProgressTotal := total;
    while deficit > 0 && |slots| > 0
      invariant Collecting(p, keys, files, walkers, buffers, cap) && buffers.Keys == start.Keys
      invariant prevs.Keys == startPrevs.Keys
      invariant total == Total(keys, buffers) && total + deficit == target
      invariant ReadersKept(walkers)
      invariant Offered(slots, keys, walkers, buffers, cap)
      invariant deficit == 0 ==> SomeUnnoticed(keys, walkers)
      decreases Active(keys, walkers), deficit
    {
      var got;
      buffers, prevs, got, slots := Round(p, keys, files, walkers, buffers, prevs, cap, slots, i, deficit);
      deficit := deficit - got;
      total := total + got;
      if total == lastProgressTotal {
        if forall j :: j in keys ==> walkers[j].exhausted {
          AllExhausted(keys, walkers, buffers, cap);
          break;
        }
      } else {
        lastProgressTotal := total;
      }
      i := i + 1;
    }
    if deficit > 0 {
      CappedOrDone(p, keys, files, walkers, buffers, cap);
    }
  }

  method OpenWalker(p: Parsing, files: seq<LogFile>, chunkSize: nat, cap: nat) returns (w: TypeTailWalker)
    requires chunkSize >= 1
    ensures fresh(w) && w.rr == null && !w.exhausted && Halfway(p, files, w, [], cap)
  {
    hide ValidLinesOf, ValidTail, TailOf;
    w := new TypeTailWalker(files, chunkSize);
    ValidTailOfFiles(p, files);
    assert SourcesOf([]) == [];
  }

  method OpenEach(p: Parsing, keys: seq<string>, files: map<string, seq<LogFile>>, chunkSize: nat, cap: nat)
    returns (walkers: Walkers)
    requires (forall k :: k in keys ==> k in files) && chunkSize >= 1
    ensures forall k :: k in walkers <==> k in keys
    ensures forall k :: k in walkers ==> fresh(walkers[k]) && walkers[k].rr == null && !walkers[k].exhausted
    ensures forall j, k :: j in walkers && k in walkers && j != k ==> walkers[j] != walkers[k]
    ensures forall k :: k in walkers ==> Halfway(p, files[k], walkers[k], [], cap)
  {
    hide Halfway;
    walkers := map[];
    for i := 0 to |keys|
      invariant forall k :: k in walkers <==> k in keys[..i]
      invariant forall k :: k in walkers ==> fresh(walkers[k]) && walkers[k].rr == null && !walkers[k].exhausted
      invariant forall j, k :: j in walkers && k in walkers && j != k ==> walkers[j] != walkers[k]
      invariant forall k :: k in walkers ==> Halfway(p, files[k], walkers[k], [], cap)
    {
      var w := OpenWalker(p, files[keys[i]], chunkSize, cap);
      assert keys[..i + 1] == keys[..i] + [keys[i]];
      walkers := walkers[keys[i] := w];
    }
    assert keys[..|keys|] == keys;
  }

  method OpenWalkers(p: Parsing, keys: seq<string>, files: map<string, seq<LogFile>>, chunkSize: nat, cap: nat)
    returns (walkers: Walkers, buffers: Lists, prevs: map<string, Option<int>>)
    requires (forall k :: k in keys ==> k in files) && chunkSize >= 1
    ensures Collecting(p, keys, files, walkers, buffers, cap) && OwnedBy(keys, walkers)
    ensures forall w :: w in walkers.Values ==> fresh(w) && w.rr == null && !w.exhausted
    ensures forall k :: k in keys ==> k in prevs && buffers[k] == []
    ensures forall k :: k in buffers <==> k in keys
  {
    hide Halfway;
    walkers := OpenEach(p, keys, files, chunkSize, cap);
    buffers := map k | k in keys :: [];
    prevs := map k | k in keys :: None;
  }

  /** A type's buffer holds its newest valid lines, in order. */
  ghost predicate HoldsNewest(p: Parsing, files: seq<LogFile>, buffer: seq<LogEntry>) {
    SourcesOf(buffer) <= ValidLinesOf(p, files)
  }

  /** What the buffers hold once collecting has stopped. */
  lemma Tally(p: Parsing, keys: seq<string>, files: map<string, seq<LogFile>>, walkers: Walkers, buffers: Lists, cap: nat, target: nat)
    requires Collecting(p, keys, files, walkers, buffers, cap) && Total(keys, buffers) <= target
    requires Total(keys, buffers) < target ==> AllFull(keys, walkers, buffers, cap)
    ensures Total(keys, buffers) == Min(target, Supply(p, keys, files, cap))
    ensures forall k :: k in keys ==> HoldsNewest(p, files[k], buffers[k]) && |buffers[k]| <= cap
    ensures forall k :: k in keys && walkers[k].exhausted ==> SourcesOf(buffers[k]) == ValidLinesOf(p, files[k])
    ensures Total(keys, buffers) < target ==>
              forall k :: k in keys ==> (walkers[k].exhausted <==> |ValidLinesOf(p, files[k])| < cap)
  {
    hide Total, Supply, ValidLinesOf, ValidTail, Apart;
    forall k | k in keys
      ensures HoldsNewest(p, files[k], buffers[k]) && |buffers[k]| <= Min(cap, |ValidLinesOf(p, files[k])|)
      ensures walkers[k].exhausted ==> SourcesOf(buffers[k]) == ValidLinesOf(p, files[k])
      ensures Total(keys, buffers) < target ==> |buffers[k]| == Min(cap, |ValidLinesOf(p, files[k])|)
      ensures Total(keys, buffers) < target ==> (walkers[k].exhausted <==> |ValidLinesOf(p, files[k])| < cap)
    {
      assert Halfway(p, files[k], walkers[k], buffers[k], cap);
      HalfwayBounds(p, files[k], walkers[k], buffers[k], cap);
    }
    TotalWithinSupply(p, keys, files, buffers, cap);
  }

  /** The collecting phase without abort. It gathers exactly the target or, if the types cannot give that
      much, all they can give under the cap; no type is above the cap. Every type has noticed its end if and only
      if the target is not met and every type is below the cap; then every buffer is complete. */
  method Collect(p: Parsing, keys: seq<string>, files: map<string, seq<LogFile>>, chunkSize: nat, target: nat, limit: Option<int>)
    returns (buffers: Lists, total: nat, covered: bool)
    requires Distinct(keys) && keys != [] && (forall k :: k in keys ==> k in files) && chunkSize >= 1
    requires target <= MAX_SAFE_INTEGER
    ensures forall k :: k in buffers <==> k in keys
    ensures total == Total(keys, buffers) == Min(target, Supply(p, keys, files, CapOf(limit)))
    ensures forall k :: k in keys ==> HoldsNewest(p, files[k], buffers[k]) && |buffers[k]| <= CapOf(limit)
    ensures covered ==> forall k :: k in keys ==> SourcesOf(buffers[k]) == ValidLinesOf(p, files[k])
    ensures covered <==> total < target && forall k :: k in keys ==> |ValidLinesOf(p, files[k])| < CapOf(limit)
  {
    hide Total, Supply, ValidLinesOf, CapOf, SumOf, Halfway, HoldsNewest, AllFull, Apart;
    var cap := CapOf(limit);
    var alloc := Allocate(target, |keys|, limit);
    var walkers, start, prevs := OpenWalkers(p, keys, files, chunkSize, cap);
    buffers, prevs, total := FirstRound(p, keys, files, walkers, start, prevs, cap, alloc);
    if total < target {
      buffers, total := Redistribute(p, keys, files, walkers, buffers, prevs, cap, target, total);
    }
    Tally(p, keys, files, walkers, buffers, cap, target);
    covered := forall k :: k in keys ==> walkers[k].exhausted;
    assert total == target ==> SomeUnnoticed(keys, walkers) by {
      assert keys[0] in keys;
    }
  }
}
