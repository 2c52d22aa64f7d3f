/** The windowed scans of file mode: they read the storage from its end in windows, and agree with one pass
    over the ascending rows, whatever the window. */
module Scans {
  import opened Prelude
  import opened Entries
  import opened ChunkStore
  import opened Paging
  import opened Views

  /** The rows of one window, read and turned round, follow the rows already seen. */
  lemma WindowRows(data: seq<LogEntry>, from: nat, tail: nat)
    requires from < tail <= |data|
    ensures Slice(data, from, tail) == data[from..tail]
    ensures Reverse(data)[..|data| - from] == Reverse(data)[..|data| - tail] + Reverse(data[from..tail])
  {
  }

  lemma AllRows(data: seq<LogEntry>)
    ensures Reverse(data)[..|data|] == Reverse(data) && Reverse(data)[..0] == []
  {
  }

  /** Reads one window of rows, in ascending order. */
  method ReadWindow(reader: PagedReader, from: nat, tail: nat) returns (rows: seq<LogEntry>)
    requires reader.WellStored() && from < tail <= |reader.Data()|
    ensures Reverse(reader.Data())[..|reader.Data()| - from] == Reverse(reader.Data())[..|reader.Data()| - tail] + rows
  {
    var desc := reader.ReadLineRange(from, tail);
    WindowRows(reader.Data(), from, tail);
    rows := Reverse(desc);
  }

  // ---------- filtered ranges ----------

  /** One window of the filtered read: `v` counts the matches, and those from row `s` on are kept. */
  method PickFromWindow(m: LogEntry -> bool, rows: seq<LogEntry>, s: int, want: nat, v0: nat, out0: seq<LogEntry>,
                        ghost found: seq<LogEntry>)
    returns (v: nat, out: seq<LogEntry>)
    requires v0 == |found| && out0 == Pick(found, s, want) && |out0| < want
    ensures out == Pick(found + Matching(m, rows), s, want)
    ensures |out| < want ==> v == |found + Matching(m, rows)|
  {
    hide Pick;
    v, out := v0, out0;
    ghost var seen := found;
    assert found + Matching(m, rows[..0]) == found;
    for i := 0 to |rows|
      invariant seen == found + Matching(m, rows[..i])
      invariant v == |seen| && out == Pick(seen, s, want) && |out| < want
    {
      assert rows[..i + 1] == rows[..i] + [rows[i]];
      MatchingAppend(m, rows[..i], [rows[i]]);
      MatchingOne(m, rows[i]);
      if !m(rows[i]) {
        assert Matching(m, rows[..i]) + [] == Matching(m, rows[..i]);
        continue;
      }
      PickSnoc(seen, rows[i], s, want);
      PickBound(seen, s, want);
      v := v + 1;
      seen := seen + [rows[i]];
      assert seen == found + Matching(m, rows[..i + 1]);
      if v < s {
        continue;
      }
      out := out + [rows[i]];
      if |out| >= want {
        MatchingAppend(m, rows[..i + 1], rows[i + 1..]);
        assert rows[..i + 1] + rows[i + 1..] == rows;
        PickFull(seen, Matching(m, rows[i + 1..]), s, want);
        assert seen + Matching(m, rows[i + 1..]) == found + Matching(m, rows);
        return;
      }
    }
    assert rows[..|rows|] == rows;
  }

  lemma PickBound(found: seq<LogEntry>, s: int, want: nat)
    ensures |Pick(found, s, want)| <= want
    ensures |Pick(found, s, want)| < want ==> |found| < Max(0, s - 1) + want
  {
  }

  /** The filtered read over the file: a slice of the matching ascending rows, for every window size. */
  method ScanFiltered(reader: PagedReader, m: LogEntry -> bool, s: int, want: nat, window: nat) returns (out: seq<LogEntry>)
    requires reader.WellStored() && window >= 1 && want >= 1
    ensures out == Pick(Matching(m, Reverse(reader.Data())), s, want)
  {
    hide Pick, Contents, Holds, Reverse;
    ghost var data := reader.Data();
    ghost var asc := Reverse(data);
    var total := reader.manifest.mergedLines;
    out := [];
    var v := 0;
    var tail := total;
    AllRows(data);
    PickNone(s, want);
    while tail > 0 && |out| < want
      invariant 0 <= tail <= total
      invariant out == Pick(Matching(m, asc[..total - tail]), s, want)
      invariant |out| < want ==> v == |Matching(m, asc[..total - tail])|
    {
      var from := Max(0, tail - window);
      var rows := ReadWindow(reader, from, tail);
      MatchingAppend(m, asc[..total - tail], rows);
      v, out := PickFromWindow(m, rows, s, want, v, out, Matching(m, asc[..total - tail]));
      tail := from;
    }
    EnoughPicked(m, asc, total - tail, s, want);
  }

  lemma PickNone(s: int, want: nat)
    ensures Pick([], s, want) == []
  {
  }

  lemma EnoughPicked(m: LogEntry -> bool, asc: seq<LogEntry>, n: nat, s: int, want: nat)
    requires n <= |asc| && (n == |asc| || |Pick(Matching(m, asc[..n]), s, want)| >= want)
    ensures Pick(Matching(m, asc), s, want) == Pick(Matching(m, asc[..n]), s, want)
  {
    hide Pick;
    assert asc[..n] + asc[n..] == asc;
    MatchingAppend(m, asc[..n], asc[n..]);
    PickBound(Matching(m, asc[..n]), s, want);
    if n < |asc| {
      PickFull(Matching(m, asc[..n]), Matching(m, asc[n..]), s, want);
    } else {
      assert asc[..n] == asc;
    }
  }

  // ---------- counting ----------

  lemma CountReverse(m: LogEntry -> bool, s: seq<LogEntry>)
    ensures |Matching(m, Reverse(s))| == |Matching(m, s)|
  {
    MatchingReverse(m, s);
  }

  method CountIn(m: LogEntry -> bool, part: seq<LogEntry>) returns (cnt: nat)
    ensures cnt == |Matching(m, part)|
  {
    cnt := 0;
    for i := 0 to |part|
      invariant cnt == |Matching(m, part[..i])|
    {
      assert part[..i + 1] == part[..i] + [part[i]];
      MatchingAppend(m, part[..i], [part[i]]);
      MatchingOne(m, part[i]);
      if m(part[i]) {
        cnt := cnt + 1;
      }
    }
    assert part[..|part|] == part;
  }

  lemma NextWindow(m: LogEntry -> bool, data: seq<LogEntry>, from: nat, to: nat)
    requires from < to <= |data|
    ensures |Matching(m, data[..to])| == |Matching(m, data[..from])| + |Matching(m, Slice(data, from, to))|
  {
    assert data[..to] == data[..from] + data[from..to];
    MatchingAppend(m, data[..from], data[from..to]);
  }

  /** The number of matching entries in the file, counted window by window from the front. */
  method ScanCount(reader: PagedReader, m: LogEntry -> bool, window: nat) returns (cnt: nat)
    requires reader.WellStored() && window >= 1
    ensures cnt == |Matching(m, reader.Data())|
  {
    hide Contents, Holds, Slice, Matching;
    var totalLines := reader.manifest.mergedLines;
    cnt := 0;
    var from := 0;
    NoneMatch(m);
    while from < totalLines
      invariant 0 <= from && cnt == |Matching(m, reader.Data()[..Min(from, totalLines)])|
    {
      var to := Min(totalLines, from + window);
      var part := reader.ReadLineRange(from, to);
      NextWindow(m, reader.Data(), from, to);
      var more := CountIn(m, part);
      cnt := cnt + more;
      from := from + window;
    }
    assert reader.Data()[..totalLines] == reader.Data();
  }

  lemma NoneMatch(m: LogEntry -> bool)
    ensures Matching(m, []) == []
  {
  }

  // ---------- searching ----------

  predicate WantMore(top: Option<int>, n: nat) {
    top.None? || top.value == 0 || n < top.value
  }

  /** Hits collected so far: all of them while more are wanted, else the first `top`. */
  ghost predicate Collected(hits: seq<Hit>, all: seq<Hit>, top: Option<int>) {
    hits == Topmost(all, top) && (WantMore(top, |hits|) ==> hits == all)
  }

  lemma CollectMore(all: seq<Hit>, h: Hit, top: Option<int>)
    requires Collected(all, all, top) && WantMore(top, |all|)
    ensures Collected(all + [h], all + [h], top)
  {
  }

  lemma CollectedStays(hits: seq<Hit>, all: seq<Hit>, more: seq<Hit>, top: Option<int>)
    requires Collected(hits, all, top) && !WantMore(top, |hits|)
    ensures Collected(hits, all + more, top)
  {
  }

  /** Searches rows in order from number `first`, until no more hits are wanted. */
  method SearchRows(rows: seq<LogEntry>, first: int, inRange: int -> bool, test: string -> bool, top: Option<int>,
                    hits0: seq<Hit>, ghost all: seq<Hit>)
    returns (hits: seq<Hit>)
    requires Collected(hits0, all, top) && WantMore(top, |hits0|)
    ensures Collected(hits, all + Hits(rows, first, inRange, test), top)
  {
    hide Collected, WantMore;
    assert hits0 == all by { CollectedAll(hits0, all, top); }
    hits := hits0;
    assert all + Hits(rows[..0], first, inRange, test) == all;
    for i := 0 to |rows|
      invariant hits == all + Hits(rows[..i], first, inRange, test)
      invariant Collected(hits, hits, top) && WantMore(top, |hits|)
    {
      HitStep(rows, i, first, inRange, test);
      if !inRange(first + i) {
        continue;
      }
      if test(rows[i].text) {
        CollectMore(hits, Hit(first + i, rows[i].text), top);
        hits := hits + [Hit(first + i, rows[i].text)];
        assert hits == all + Hits(rows[..i + 1], first, inRange, test);
        if !WantMore(top, |hits|) {
          RestOfHits(rows, i + 1, first, inRange, test);
          CollectedStays(hits, hits, Hits(rows[i + 1..], first + i + 1, inRange, test), top);
          assert hits + Hits(rows[i + 1..], first + i + 1, inRange, test) == all + Hits(rows, first, inRange, test);
          return;
        }
      }
    }
    assert rows[..|rows|] == rows;
  }

  lemma CollectedAll(hits: seq<Hit>, all: seq<Hit>, top: Option<int>)
    requires Collected(hits, all, top) && WantMore(top, |hits|)
    ensures hits == all
  {
  }

  lemma HitStep(rows: seq<LogEntry>, i: nat, first: int, inRange: int -> bool, test: string -> bool)
    requires i < |rows|
    ensures Hits(rows[..i + 1], first, inRange, test)
            == Hits(rows[..i], first, inRange, test)
               + if inRange(first + i) && test(rows[i].text) then [Hit(first + i, rows[i].text)] else []
  {
    assert rows[..i + 1] == rows[..i] + [rows[i]];
    HitsAppend(rows[..i], [rows[i]], first, inRange, test);
    OneHit(rows[i], first + i, inRange, test);
  }

  lemma OneHit(x: LogEntry, n: int, inRange: int -> bool, test: string -> bool)
    ensures Hits([x], n, inRange, test) == if inRange(n) && test(x.text) then [Hit(n, x.text)] else []
  {
  }

  lemma RestOfHits(rows: seq<LogEntry>, i: nat, first: int, inRange: int -> bool, test: string -> bool)
    requires i <= |rows|
    ensures Hits(rows, first, inRange, test) == Hits(rows[..i], first, inRange, test) + Hits(rows[i..], first + i, inRange, test)
  {
    assert rows == rows[..i] + rows[i..];
    HitsAppend(rows[..i], rows[i..], first, inRange, test);
  }

  /** The search over the file: the first hits among the matching ascending rows, for every window size. */
  method ScanSearch(reader: PagedReader, m: LogEntry -> bool, inRange: int -> bool, test: string -> bool, top: Option<int>, window: nat)
    returns (hits: seq<Hit>)
    requires reader.WellStored() && window >= 1
    ensures hits == Topmost(Hits(Matching(m, Reverse(reader.Data())), 1, inRange, test), top)
  {
    hide Contents, Holds, Reverse, Collected, WantMore, Hits;
    ghost var data := reader.Data();
    ghost var asc := Reverse(data);
    var total := reader.manifest.mergedLines;
    hits := [];
    var v := 0;
    var tail := total;
    AllRows(data);
    NothingCollected(inRange, test, top);
    while tail > 0 && WantMore(top, |hits|)
      invariant 0 <= tail <= total
      invariant Collected(hits, Hits(Matching(m, asc[..total - tail]), 1, inRange, test), top)
      invariant v == |Matching(m, asc[..total - tail])|
    {
      var from := Max(0, tail - window);
      var rows := ReadWindow(reader, from, tail);
      MatchingAppend(m, asc[..total - tail], rows);
      ghost var found := Matching(m, asc[..total - tail]);
      var matching := Matching(m, rows);
      HitsAppend(found, matching, 1, inRange, test);
      hits := SearchRows(matching, v + 1, inRange, test, top, hits, Hits(found, 1, inRange, test));
      v := v + |matching|;
      tail := from;
    }
    EnoughCollected(m, asc, total - tail, inRange, test, top, hits);
  }

  lemma NothingCollected(inRange: int -> bool, test: string -> bool, top: Option<int>)
    ensures Collected([], Hits([], 1, inRange, test), top)
  {
  }

  lemma EnoughCollected(m: LogEntry -> bool, asc: seq<LogEntry>, n: nat, inRange: int -> bool, test: string -> bool,
                        top: Option<int>, hits: seq<Hit>)
    requires n <= |asc| && Collected(hits, Hits(Matching(m, asc[..n]), 1, inRange, test), top)
    requires n == |asc| || !WantMore(top, |hits|)
    ensures hits == Topmost(Hits(Matching(m, asc), 1, inRange, test), top)
  {
    assert asc[..n] + asc[n..] == asc;
    MatchingAppend(m, asc[..n], asc[n..]);
    var found, rest := Matching(m, asc[..n]), Matching(m, asc[n..]);
    HitsAppend(found, rest, 1, inRange, test);
    if n < |asc| {
      CollectedStays(hits, Hits(found, 1, inRange, test), Hits(rest, 1 + |found|, inRange, test), top);
    } else {
      assert asc[..n] == asc;
    }
  }
}
