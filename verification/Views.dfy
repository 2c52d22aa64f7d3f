/** What the pagination service serves, said of plain sequences: rows are numbered from 1 in ascending time,
    and stored in descending time. */
module Views {
  import opened Prelude
  import opened Entries

  datatype Row = Row(idx: int, entry: LogEntry)

  /** The entries with consecutive numbers from `first`. */
  function NumberedFrom(first: int, entries: seq<LogEntry>): (r: seq<Row>)
    ensures |r| == |entries|
    ensures forall i :: 0 <= i < |r| ==> r[i] == Row(first + i, entries[i])
  {
    seq(|entries|, i requires 0 <= i < |entries| => Row(first + i, entries[i]))
  }

  /** Rows `s` to `e`, both included. */
  function Rows(asc: seq<LogEntry>, s: int, e: int): seq<Row>
    requires 1 <= s <= e + 1 <= |asc| + 1
  {
    NumberedFrom(s, asc[s - 1..e])
  }

  /** A row number moved into `1..n`. */
  function Within(x: int, n: nat): (r: int)
    requires n >= 1
    ensures 1 <= r <= n
  {
    Max(1, Min(n, x))
  }

  /** What file mode answers: both ends are moved into range. */
  function FileView(asc: seq<LogEntry>, s: int, e: int): seq<Row> {
    if s > e || asc == [] then [] else Rows(asc, Within(s, |asc|), Within(e, |asc|))
  }

  /** `x | 0`: the low 32 bits, read as a signed number. */
  function ToInt32(x: int): int {
    var low := x % 0x1_0000_0000;
    if low >= 0x8000_0000 then low - 0x1_0000_0000 else low
  }

  /** What memory mode answers past its end while there is no file to fall back to: as long a tail. */
  function TailView(asc: seq<LogEntry>, s: int, e: int): seq<Row>
    requires asc != []
  {
    Rows(asc, Max(1, |asc| - Max(1, ToInt32(e - s + 1)) + 1), |asc|)
  }

  /** What memory mode answers; `behind` is what the file holds, if a reader is open. */
  function WarmView(asc: seq<LogEntry>, behind: Option<seq<LogEntry>>, s: int, e: int): seq<Row>
    requires asc != []
  {
    if s > e || e <= 0 then []
    else if s <= |asc| then Rows(asc, Within(s, |asc|), Within(e, |asc|))
    else if behind.Some? then FileView(behind.value, s, e)
    else TailView(asc, s, e)
  }

  /** The two modes over the same rows answer alike, with no reader open, exactly when the request is empty, or
      it reaches row 1 or beyond and starts within the rows, or a tail of one row is meant. */
  lemma ModesAgree(asc: seq<LogEntry>, s: int, e: int)
    requires asc != []
    ensures WarmView(asc, None, s, e) == FileView(asc, s, e) <==>
            s > e || (e >= 1 && (s <= |asc| || |asc| == 1 || ToInt32(e - s + 1) <= 1))
  {
  }

  /** A window past the end: the memory mode answers two rows, the file mode one. */
  lemma PastTheEndDiffers(x: LogEntry, y: LogEntry)
    ensures WarmView([x, y], None, 3, 4) != FileView([x, y], 3, 4)
  {
  }

  /** A window before row 1: memory mode answers nothing, with or without a reader, file mode the first row. */
  lemma BeforeTheStartDiffers(x: LogEntry, behind: Option<seq<LogEntry>>, s: int, e: int)
    requires s <= e <= 0
    ensures WarmView([x], behind, s, e) == [] && FileView([x], s, e) == [Row(1, x)]
  {
    hide ToInt32, TailView, NumberedFrom;
    OneRow(x);
  }

  lemma OneRow(x: LogEntry)
    ensures Rows([x], 1, 1) == [Row(1, x)]
  {
    hide NumberedFrom;
    assert [x][0..1] == [x];
  }

  /** With a reader open on the same rows, only a request that ends before row 1 is answered differently. */
  lemma ModesAgreeWithReader(asc: seq<LogEntry>, s: int, e: int)
    requires asc != []
    ensures WarmView(asc, Some(asc), s, e) == FileView(asc, s, e) <==> s > e || e >= 1
  {
  }

  /** In range, both answer rows `s` to `e` under their own numbers. */
  lemma InRangeAnswer(asc: seq<LogEntry>, behind: Option<seq<LogEntry>>, s: int, e: int)
    requires 1 <= s <= e <= |asc|
    ensures WarmView(asc, behind, s, e) == FileView(asc, s, e) == Rows(asc, s, e)
  {
  }

  // ---------- from ascending rows to descending storage ----------

  /** The stored positions of ascending rows `s` to `e`. */
  function MapAscToDescRange(total: nat, s: int, e: int): (r: (int, int)) {
    (Max(0, total - e), Min(total, total - s + 1))
  }

  /** Reading the mapped range and turning it round gives the rows. */
  lemma MappedRange(stored: seq<LogEntry>, s: int, e: int)
    requires 1 <= s <= e <= |stored|
    ensures var (from, to) := MapAscToDescRange(|stored|, s, e);
            0 <= from <= to <= |stored| && NumberedFrom(s, Reverse(stored[from..to])) == Rows(Reverse(stored), s, e)
  {
  }

  // ---------- filtering ----------

  function Matching(m: LogEntry -> bool, s: seq<LogEntry>): seq<LogEntry> {
    if s == [] then [] else (if m(s[0]) then [s[0]] else []) + Matching(m, s[1..])
  }

  lemma {:induction false} MatchingAppend(m: LogEntry -> bool, a: seq<LogEntry>, b: seq<LogEntry>)
    ensures Matching(m, a + b) == Matching(m, a) + Matching(m, b)
  {
    if a == [] {
      assert a + b == b;
    } else {
      assert (a + b)[0] == a[0] && (a + b)[1..] == a[1..] + b;
      MatchingAppend(m, a[1..], b);
      var head := if m(a[0]) then [a[0]] else [];
      assert Matching(m, a) == head + Matching(m, a[1..]);
      assert Matching(m, a + b) == head + Matching(m, (a + b)[1..]);
    }
  }

  lemma MatchingOne(m: LogEntry -> bool, x: LogEntry)
    ensures Matching(m, [x]) == if m(x) then [x] else []
  {
  }

  lemma {:induction false} MatchingReverse(m: LogEntry -> bool, s: seq<LogEntry>)
    ensures Matching(m, Reverse(s)) == Reverse(Matching(m, s))
  {
    if s == [] {
      assert Reverse(s) == [];
    } else {
      var x, rest := s[0], s[1..];
      assert s == [x] + rest;
      MatchingReverse(m, rest);
      ReverseCons(x, rest);
      ReverseCons(x, Matching(m, rest));
      hide Reverse;
      MatchingAppend(m, Reverse(rest), [x]);
      MatchingOne(m, x);
      if !m(x) {
        assert Matching(m, s) == Matching(m, rest);
        assert Reverse(Matching(m, rest)) + [] == Reverse(Matching(m, rest));
      }
    }
  }

  /** `want` entries from row `s` of the filtered rows; a start before row 1 counts as row 1. */
  function Pick(found: seq<LogEntry>, s: int, want: nat): seq<LogEntry> {
    var from := Max(0, s - 1);
    found[Min(from, |found|)..Min(from + want, |found|)]
  }

  /** What a filtered request answers, in both modes. */
  function FilteredView(found: seq<LogEntry>, s: int, e: int): seq<Row> {
    if s > e then [] else NumberedFrom(s, Pick(found, s, e - s + 1))
  }

  lemma PickSnoc(found: seq<LogEntry>, x: LogEntry, s: int, want: nat)
    ensures Pick(found + [x], s, want)
            == Pick(found, s, want) + if Max(0, s - 1) <= |found| < Max(0, s - 1) + want then [x] else []
  {
  }

  /** Once enough are picked, later entries change nothing. */
  lemma PickFull(found: seq<LogEntry>, more: seq<LogEntry>, s: int, want: nat)
    requires |Pick(found, s, want)| == want
    ensures Pick(found + more, s, want) == Pick(found, s, want)
  {
  }

  // ---------- search ----------

  datatype Hit = Hit(idx: int, text: string)

  /** Hits in ascending rows: the rows in range whose text passes, `first` being the number of the first row. */
  function Hits(found: seq<LogEntry>, first: int, inRange: int -> bool, test: string -> bool): seq<Hit> {
    if found == [] then []
    else (if inRange(first) && test(found[0].text) then [Hit(first, found[0].text)] else [])
         + Hits(found[1..], first + 1, inRange, test)
  }

  /** The answer of a search: all hits, or the first `top` of them; zero stands for no limit. */
  function Topmost(hits: seq<Hit>, top: Option<int>): seq<Hit> {
    if top.None? || top.value == 0 then hits else hits[..Max(0, Min(top.value, |hits|))]
  }

  /** The answer of a search in memory mode, which looks for a first hit before it asks whether more are wanted. */
  function MemoryTopmost(hits: seq<Hit>, top: Option<int>): seq<Hit> {
    if top.Some? && top.value < 0 then hits[..Min(1, |hits|)] else Topmost(hits, top)
  }

  /** The two modes answer a search alike if and only if there is no hit or the limit is not negative. */
  lemma SearchesAgree(hits: seq<Hit>, top: Option<int>)
    ensures MemoryTopmost(hits, top) == Topmost(hits, top) <==> hits == [] || top.None? || top.value >= 0
  {
  }

  lemma NegativeLimitDiffers(h: Hit)
    ensures MemoryTopmost([h], Some(-1)) == [h] && Topmost([h], Some(-1)) == []
  {
  }

  lemma {:induction false} HitsAppend(a: seq<LogEntry>, b: seq<LogEntry>, first: int, inRange: int -> bool, test: string -> bool)
    ensures Hits(a + b, first, inRange, test) == Hits(a, first, inRange, test) + Hits(b, first + |a|, inRange, test)
    decreases |a|
  {
    if a == [] {
      assert a + b == b;
    } else {
      assert (a + b)[0] == a[0] && (a + b)[1..] == a[1..] + b;
      HitsAppend(a[1..], b, first + 1, inRange, test);
      var head := if inRange(first) && test(a[0].text) then [Hit(first, a[0].text)] else [];
      assert Hits(a, first, inRange, test) == head + Hits(a[1..], first + 1, inRange, test);
      assert Hits(a + b, first, inRange, test) == head + Hits((a + b)[1..], first + 1, inRange, test);
    }
  }

  /** A hit names the row it was found at. */
  lemma {:induction false} HitIsRow(found: seq<LogEntry>, first: int, inRange: int -> bool, test: string -> bool, k: int)
    requires 0 <= k < |Hits(found, first, inRange, test)|
    ensures var h := Hits(found, first, inRange, test)[k];
            && first <= h.idx < first + |found|
            && found[h.idx - first].text == h.text
            && inRange(h.idx) && test(h.text)
    decreases |found|
  {
    var head := if inRange(first) && test(found[0].text) then 1 else 0;
    if k >= head {
      HitIsRow(found[1..], first + 1, inRange, test, k - head);
    }
  }

  /** Every row that qualifies is a hit. */
  lemma {:induction false} RowIsHit(found: seq<LogEntry>, first: int, inRange: int -> bool, test: string -> bool, i: int)
    requires 0 <= i < |found| && inRange(first + i) && test(found[i].text)
    ensures Hit(first + i, found[i].text) in Hits(found, first, inRange, test)
    decreases i
  {
    if i > 0 {
      RowIsHit(found[1..], first + 1, inRange, test, i - 1);
    }
  }

  ghost predicate Rising(hits: seq<Hit>) {
    forall j, k :: 0 <= j < k < |hits| ==> hits[j].idx < hits[k].idx
  }

  lemma RisingCons(h: Hit, hits: seq<Hit>)
    requires Rising(hits) && forall k :: 0 <= k < |hits| ==> h.idx < hits[k].idx
    ensures Rising([h] + hits)
  {
  }

  lemma {:induction false} HitsRise(found: seq<LogEntry>, first: int, inRange: int -> bool, test: string -> bool)
    ensures Rising(Hits(found, first, inRange, test))
    decreases |found|
  {
    hide Rising;
    if found == [] {
      NoneRise();
    } else {
      var rest := Hits(found[1..], first + 1, inRange, test);
      HitsRise(found[1..], first + 1, inRange, test);
      forall k | 0 <= k < |rest|
        ensures rest[k].idx > first
      {
        HitIsRow(found[1..], first + 1, inRange, test, k);
      }
      RisingCons(Hit(first, found[0].text), rest);
      assert [] + rest == rest;
    }
  }

  lemma NoneRise()
    ensures Rising([])
  {
  }
}
