/** The pagination service: a memory mode and a file mode behind one set of row numbers, a filter, and a
    versioned cache of the filtered total. */
module Pagination {
  import opened Prelude
  import opened Entries
  import opened ChunkStore
  import opened Paging
  import opened Views
  import opened Scans
  import FL = FilterLanguage
  import FM = FilterMatching

  type Filter = FM.Filter

  /** How the service reads a line: lower-casing, and the fields of a text. */
  datatype Matcher = Matcher(lower: FM.Lowering, parse: string -> Fields)

  datatype Fields = Fields(pid: string, proc: string, msg: string)

  /** What the cached total was computed for. */
  datatype Key = Key(filter: Filter, version: nat, warm: bool)

  datatype Service = Service(
    manifestDir: Option<string>,
    reader: Option<PagedReader>,
    version: nat,
    warmActive: bool,
    warmBuffer: seq<LogEntry>,
    warmTotal: int,
    filter: Option<Filter>,
    cacheKey: Option<Key>,
    cacheTotal: Option<nat>)

  const START := Service(None, None, 0, false, [], 0, None, None, None)

  // ---------- the atomic changes ----------

  function Bumped(s: Service): Service { s.(version := s.version + 1) }

  function Invalidated(s: Service): Service { s.(cacheKey := None, cacheTotal := None) }

  function DirOpened(s: Service, dir: string, next: PagedReader): Service {
    Invalidated(Bumped(s.(reader := Some(next), manifestDir := Some(dir))))
  }

  function Cleared(s: Service): Service {
    if !s.warmActive then s else Bumped(s.(warmBuffer := [], warmTotal := 0, warmActive := false))
  }

  function Reopened(s: Service, next: PagedReader): Service {
    Invalidated(Bumped(s.(reader := Some(next))))
  }

  function Seeded(s: Service, entries: seq<LogEntry>, virtualTotal: int): Service {
    Bumped(s.(warmBuffer := entries, warmTotal := Max(|entries|, virtualTotal), warmActive := |entries| > 0))
  }

  function Filtered(s: Service, f: Option<Filter>): Service {
    var norm := if f.None? then None else FM.HostFilter(f.value);
    if norm == s.filter then s else Bumped(Invalidated(s.(filter := norm)))
  }

  function Cached(s: Service, key: Key, total: nat): Service { s.(cacheKey := Some(key), cacheTotal := Some(total)) }

  // ---------- what the service stands for ----------

  function PresentKey(s: Service): Key
    requires s.filter.Some?
  {
    Key(s.filter.value, s.version, s.warmActive)
  }

  predicate CacheHit(s: Service) {
    s.filter.Some? && s.cacheKey == Some(PresentKey(s)) && s.cacheTotal.Some?
  }

  predicate IsActive(f: Filter) {
    FM.Has(f.pid) || FM.Has(f.src) || FM.Has(f.proc) || FM.Has(f.msg)
  }

  ghost predicate Sound(s: Service) {
    && (s.reader.Some? ==> s.reader.value.WellStored())
    && (s.warmActive ==> s.warmBuffer != [] && s.warmTotal >= |s.warmBuffer|)
    && (s.filter.Some? ==> IsActive(s.filter.value))
  }

  /** The entries of the present mode as stored, latest first. */
  ghost function Stored(s: Service): seq<LogEntry> {
    if s.warmActive then s.warmBuffer else if s.reader.Some? then s.reader.value.Data() else []
  }

  /** The filter as a test on entries; no filter passes everything. */
  function Passes(matcher: Matcher, filter: Option<Filter>): LogEntry -> bool {
    (e: LogEntry) =>
      var fields := matcher.parse(e.text);
      FM.Matches(matcher.lower, filter, FM.Row(fields.pid, fields.proc, fields.msg, e.file))
  }

  /** The rows the filter leaves, in ascending order. */
  ghost function Found(matcher: Matcher, s: Service): seq<LogEntry> {
    Matching(Passes(matcher, s.filter), Reverse(Stored(s)))
  }

  ghost function Behind(s: Service): Option<seq<LogEntry>> {
    if s.reader.Some? then Some(Reverse(s.reader.value.Data())) else None
  }

  /** What reading rows `a` to `b` answers. */
  ghost function RangeView(matcher: Matcher, s: Service, a: int, b: int): seq<Row>
    requires Sound(s)
  {
    if s.filter.Some? then FilteredView(Found(matcher, s), a, b)
    else if s.warmActive then WarmView(Reverse(s.warmBuffer), Behind(s), a, b)
    else FileView(Reverse(Stored(s)), a, b)
  }

  lemma TrimIsTight(x: string)
    requires FL.Trim(x) != []
    ensures FM.Has(FL.Trim(x))
  {
    FL.TrimStartEnds(x);
    FL.TrimEndStarts(FL.TrimStart(x));
    FL.BlankText(FL.Trim(x));
  }

  lemma HostFilterIsActive(f: Filter)
    ensures FM.HostFilter(f).Some? ==> IsActive(FM.HostFilter(f).value)
  {
    if FL.Trim(f.pid) != [] { TrimIsTight(f.pid); }
    if FL.Trim(f.src) != [] { TrimIsTight(f.src); }
    if FL.Trim(f.proc) != [] { TrimIsTight(f.proc); }
    if FL.Trim(f.msg) != [] { TrimIsTight(f.msg); }
  }

  lemma {:induction false} MatchingAll(m: LogEntry -> bool, s: seq<LogEntry>)
    requires forall e :: m(e)
    ensures Matching(m, s) == s
  {
    if s != [] {
      MatchingAll(m, s[1..]);
    }
  }

  lemma NoFilterKeepsAll(matcher: Matcher, s: seq<LogEntry>)
    ensures Matching(Passes(matcher, None), s) == s
  {
    var m := Passes(matcher, None);
    forall e: LogEntry
      ensures m(e)
    {
      var fields := matcher.parse(e.text);
      assert FM.Matches(matcher.lower, None, FM.Row(fields.pid, fields.proc, fields.msg, e.file));
    }
    MatchingAll(m, s);
  }

  lemma NoRowsToView(data: seq<LogEntry>, s: int, e: int)
    ensures s > e || data == [] ==> FileView(Reverse(data), s, e) == []
  {
  }

  lemma NothingRead(s: int, e: int, total: nat)
    requires total >= 1
    ensures var (physStart, physEndExcl) := MapAscToDescRange(total, Within(s, total), Within(e, total));
            NumberedFrom(Within(s, total), Reverse(Slice<LogEntry>([], physStart, physEndExcl))) == []
  {
    hide NumberedFrom, Reverse, Within;
  }

  lemma MappedSlice(data: seq<LogEntry>, s: int, e: int)
    requires 1 <= s <= e <= |data|
    ensures var (physStart, physEndExcl) := MapAscToDescRange(|data|, s, e);
            NumberedFrom(s, Reverse(Slice(data, physStart, physEndExcl))) == Rows(Reverse(data), s, e)
  {
    hide NumberedFrom, Reverse, Rows;
    MappedRange(data, s, e);
    var (physStart, physEndExcl) := MapAscToDescRange(|data|, s, e);
    assert Slice(data, physStart, physEndExcl) == data[physStart..physEndExcl];
  }

  /** Reading the mapped range of the stored rows and numbering it is the file view. If nothing is stored, whatever
      total is announced, nothing is read. */
  lemma FileRead(data: seq<LogEntry>, s: int, e: int, total: nat)
    requires s <= e && total >= 1 && (data != [] ==> total == |data|)
    ensures var (physStart, physEndExcl) := MapAscToDescRange(total, Within(s, total), Within(e, total));
            NumberedFrom(Within(s, total), Reverse(Slice(data, physStart, physEndExcl))) == FileView(Reverse(data), s, e)
  {
    hide NumberedFrom, Reverse, Rows, MapAscToDescRange, Slice;
    if data == [] {
      NoRowsToView(data, s, e);
      NothingRead(s, e, total);
    } else {
      MappedSlice(data, Within(s, total), Within(e, total));
    }
  }

  predicate InSearchRange(range: Option<(int, int)>, k: int) {
    range.None? || Max(1, range.value.0) <= k <= Max(1, range.value.1)
  }

  class PaginationService {
    const matcher: Matcher
    var manifestDir: Option<string>
    var reader: Option<PagedReader>
    var version: nat
    var warmActive: bool
    var warmBuffer: seq<LogEntry>
    var warmTotal: int
    var filter: Option<Filter>
    var filteredCacheKey: Option<Key>
    var filteredTotalCache: Option<nat>

    constructor (matcher: Matcher)
      ensures State() == START && this.matcher == matcher
    {
      this.matcher := matcher;
      manifestDir, reader, version, warmActive, warmBuffer, warmTotal := None, None, 0, false, [], 0;
      filter, filteredCacheKey, filteredTotalCache := None, None, None;
    }

    ghost function State(): Service
      reads this
    {
      Service(manifestDir, reader, version, warmActive, warmBuffer, warmTotal, filter, filteredCacheKey, filteredTotalCache)
    }

    method SetManifestDir(dir: string, next: PagedReader)
      requires next.WellStored() && Sound(State())
      modifies this
      ensures Sound(State())
      ensures State() == if old(manifestDir) == Some(dir) then old(State()) else DirOpened(old(State()), dir, next)
    {
      if manifestDir != Some(dir) {
        reader := Some(next);
        manifestDir := Some(dir);
        version := version + 1;
        InvalidateFilterCache();
      }
    }

    method Reload(next: PagedReader)
      requires next.WellStored() && Sound(State())
      modifies this
      ensures Sound(State())
      ensures State() == if old(manifestDir).None? then old(State()) else Reopened(Cleared(old(State())), next)
    {
      if manifestDir.None? {
        return;
      }
      ClearWarmup();
      reader := Some(next);
      version := version + 1;
      InvalidateFilterCache();
    }

    method InvalidateFilterCache()
      modifies this
      ensures State() == Invalidated(old(State()))
    {
      filteredTotalCache := None;
      filteredCacheKey := None;
    }

    method ClearWarmup()
      modifies this
      ensures State() == Cleared(old(State()))
    {
      if !warmActive {
        return;
      }
      warmBuffer := [];
      warmTotal := 0;
      warmActive := false;
      version := version + 1;
    }

    method SeedWarmupBuffer(entries: seq<LogEntry>, virtualTotal: int)
      requires Sound(State())
      modifies this
      ensures Sound(State()) && State() == Seeded(old(State()), entries, virtualTotal)
    {
      warmBuffer := entries;
      warmTotal := Max(|entries|, virtualTotal);
      warmActive := |entries| > 0;
      version := version + 1;
    }

    /** A filter that says the same leaves version and cache alone. */
    method SetFilter(f: Option<Filter>)
      requires Sound(State())
      modifies this
      ensures Sound(State()) && State() == Filtered(old(State()), f)
    {
      var norm := if f.None? then None else FM.HostFilter(f.value);
      if f.Some? {
        HostFilterIsActive(f.value);
      }
      var changed := filter != norm;
      filter := norm;
      if changed {
        InvalidateFilterCache();
        version := version + 1;
      }
    }

    function GetWarmTotal(): int
      reads this
    {
      if warmTotal != 0 then warmTotal else |warmBuffer|
    }

    function GetFileTotal(): int
      reads this
    {
      if reader.Some? then reader.value.manifest.mergedLines else 0
    }

    predicate IsFilterActive()
      reads this
    {
      filter.Some? && IsActive(filter.value)
    }

    method ReadWarm(s: int, e: int) returns (rows: seq<Row>)
      requires 1 <= s <= e <= |warmBuffer|
      ensures rows == Rows(Reverse(warmBuffer), s, e)
    {
      var (physStart, physEndExcl) := MapAscToDescRange(|warmBuffer|, s, e);
      MappedRange(warmBuffer, s, e);
      rows := NumberedFrom(s, Reverse(warmBuffer[physStart..physEndExcl]));
    }

    /** File mode: the merged count is the total; a count that is only announced serves nothing. */
    method ReadFile(r: PagedReader, s: int, e: int) returns (rows: seq<Row>)
      requires r.WellStored()
      ensures rows == FileView(Reverse(r.Data()), s, e)
    {
      hide Contents, Holds, PagedReader.Data, FileView, MapAscToDescRange, Slice, Reverse;
      NoRowsToView(r.Data(), s, e);
      if s > e {
        return [];
      }
      var total := if r.GetTotalLines().Some? then r.GetTotalLines().value else 0;
      if r.manifest.mergedLines > 0 {
        total := r.manifest.mergedLines;
      }
      if total <= 0 {
        return [];
      }
      var from, to := Within(s, total), Within(e, total);
      var (physStart, physEndExcl) := MapAscToDescRange(total, from, to);
      var desc := r.ReadLineRange(physStart, physEndExcl);
      FileRead(r.Data(), s, e, total);
      rows := NumberedFrom(from, Reverse(desc));
    }

    method ReadRangeByIdx(s: int, e: int, window: nat) returns (rows: seq<Row>)
      requires Sound(State()) && window >= 1
      ensures rows == RangeView(matcher, State(), s, e)
    {
      hide Contents, Holds, Rows, ToInt32, Pick;
      if IsFilterActive() {
        rows := ReadRangeFiltered(s, e, window);
        return;
      }
      if warmActive {
        if s > e || e <= 0 {
          return [];
        }
        var n := |warmBuffer|;
        if s > n && e > n {
          if reader.None? {
            var win := Max(1, ToInt32(e - s + 1));
            rows := ReadWarm(Max(1, n - win + 1), n);
            return;
          }
        } else {
          rows := ReadWarm(Within(s, n), Within(e, n));
          return;
        }
      }
      if reader.None? {
        return [];
      }
      rows := ReadFile(reader.value, s, e);
    }

    method ReadRangeFiltered(s: int, e: int, window: nat) returns (rows: seq<Row>)
      requires Sound(State()) && window >= 1
      ensures rows == FilteredView(Found(matcher, State()), s, e)
    {
      hide Contents, Holds, Matching, NumberedFrom, Reverse, PagedReader.Data;
      if s > e {
        return [];
      }
      var want := e - s + 1;
      var m := Passes(matcher, filter);
      if warmActive {
        MatchingReverse(m, warmBuffer);
        var asc := Reverse(Matching(m, warmBuffer));
        var s0 := Max(0, s - 1);
        rows := NumberedFrom(s, asc[Min(s0, |asc|)..Min(s0 + want, |asc|)]);
        return;
      }
      if reader.None? {
        NoneMatch(m);
        assert Reverse<LogEntry>([]) == [];
        return [];
      }
      var out := ScanFiltered(reader.value, m, s, want, window);
      rows := NumberedFrom(s, out);
    }

    /** The number of rows. A filtered one comes from the cache if the key is the present one, and else is
        counted and cached; without a filter memory mode states its announced total. */
    method GetFilteredTotal(window: nat) returns (total: int)
      requires Sound(State()) && window >= 1
      modifies this`filteredCacheKey, this`filteredTotalCache
      ensures filter.None? ==> total == (if warmActive then warmTotal else |Found(matcher, State())|)
      ensures filter.Some? ==> total == if CacheHit(old(State())) then old(State()).cacheTotal.value else |Found(matcher, State())|
      ensures State() == old(State()) || (filter.Some? && total >= 0 && State() == Cached(old(State()), PresentKey(old(State())), total))
    {
      hide Contents, Holds, Matching;
      if filter.None? {
        NoFilterKeepsAll(matcher, Reverse(Stored(State())));
        return if warmActive then GetWarmTotal() else GetFileTotal();
      }
      var key := Key(filter.value, version, warmActive);
      if filteredCacheKey == Some(key) && filteredTotalCache.Some? {
        return filteredTotalCache.value;
      }
      var m := Passes(matcher, filter);
      if warmActive {
        CountReverse(m, warmBuffer);
        total := CountIn(m, warmBuffer);
        filteredCacheKey := Some(key);
        filteredTotalCache := Some(total);
        return;
      }
      if reader.None? {
        NoneMatch(m);
        assert Reverse<LogEntry>([]) == [];
        return 0;
      }
      total := ScanCount(reader.value, m, window);
      CountReverse(m, reader.value.Data());
      filteredCacheKey := Some(key);
      filteredTotalCache := Some(total);
    }

    /** The hits among the filtered rows, in order. A negative `top` gives one hit in memory mode. */
    method SearchAll(range: Option<(int, int)>, test: string -> bool, top: Option<int>, window: nat) returns (hits: seq<Hit>)
      requires Sound(State()) && window >= 1
      ensures var all := Hits(Found(matcher, State()), 1, k => InSearchRange(range, k), test);
              hits == if warmActive then MemoryTopmost(all, top) else Topmost(all, top)
    {
      hide Contents, Holds, Matching, Hits, Topmost, MemoryTopmost, Passes;
      var inRange := (k: int) => InSearchRange(range, k);
      var m := Passes(matcher, filter);
      if warmActive {
        MatchingReverse(m, warmBuffer);
        var asc := Reverse(Matching(m, warmBuffer));
        hits := SearchMemory(asc, inRange, test, top);
        return;
      }
      if reader.None? {
        NoHits(m, inRange, test, top);
        return [];
      }
      hits := ScanSearch(reader.value, m, inRange, test, top, window);
    }
  }

  lemma NoHits(m: LogEntry -> bool, inRange: int -> bool, test: string -> bool, top: Option<int>)
    ensures Topmost(Hits(Matching(m, Reverse([])), 1, inRange, test), top) == []
  {
  }

  /** Memory mode looks for a first hit before it asks whether more are wanted. */
  method SearchMemory(asc: seq<LogEntry>, inRange: int -> bool, test: string -> bool, top: Option<int>) returns (hits: seq<Hit>)
    ensures hits == MemoryTopmost(Hits(asc, 1, inRange, test), top)
  {
    hide Hits;
    hits := [];
    NoHitsIn(inRange, test);
    for i := 0 to |asc|
      invariant hits == Hits(asc[..i], 1, inRange, test)
      invariant hits == [] || WantMore(top, |hits|)
    {
      HitStep(asc, i, 1, inRange, test);
      if !inRange(i + 1) {
        continue;
      }
      if test(asc[i].text) {
        hits := hits + [Hit(i + 1, asc[i].text)];
        if !WantMore(top, |hits|) {
          RestOfHits(asc, i + 1, 1, inRange, test);
          return;
        }
      }
    }
    assert asc[..|asc|] == asc;
  }

  lemma NoHitsIn(inRange: int -> bool, test: string -> bool)
    ensures Hits([], 1, inRange, test) == []
  {
  }

  // ---------- what every mode and filter agrees on ----------

  lemma PickInRange(found: seq<LogEntry>, a: int, b: int)
    requires 1 <= a <= b <= |found|
    ensures FilteredView(found, a, b) == Rows(found, a, b)
  {
    hide NumberedFrom;
  }

  /** Within the rows there are, every mode, filtered or not, answers exactly the rows asked for. */
  lemma InRangeReads(matcher: Matcher, s: Service, a: int, b: int)
    requires Sound(s) && 1 <= a <= b <= |Found(matcher, s)|
    ensures RangeView(matcher, s, a, b) == Rows(Found(matcher, s), a, b)
  {
    var rows := Found(matcher, s);
    hide Matching, Passes, Rows, FilteredView, WarmView, FileView, Reverse;
    if s.filter.None? {
      NoFilterKeepsAll(matcher, Reverse(Stored(s)));
      InRangeAnswer(rows, Behind(s), a, b);
    } else {
      PickInRange(rows, a, b);
    }
  }

  /** Reading on from where a read ended continues it. */
  lemma ReadsJoin(matcher: Matcher, s: Service, a: int, b: int, c: int)
    requires Sound(s) && 1 <= a <= b < c <= |Found(matcher, s)|
    ensures RangeView(matcher, s, a, b) + RangeView(matcher, s, b + 1, c) == RangeView(matcher, s, a, c)
  {
    hide Found, RangeView, Sound;
    InRangeReads(matcher, s, a, b);
    InRangeReads(matcher, s, b + 1, c);
    InRangeReads(matcher, s, a, c);
  }

  /** Every hit, whatever the mode, filter, range and limit, names a row that reads back as the text found. */
  lemma HitsCanBeRead(matcher: Matcher, s: Service, inRange: int -> bool, test: string -> bool, k: int)
    requires Sound(s) && 0 <= k < |Hits(Found(matcher, s), 1, inRange, test)|
    ensures var h := Hits(Found(matcher, s), 1, inRange, test)[k];
            1 <= h.idx <= |Found(matcher, s)| &&
            var row := Found(matcher, s)[h.idx - 1];
            row.text == h.text && RangeView(matcher, s, h.idx, h.idx) == [Row(h.idx, row)]
  {
    hide Found, RangeView, Sound;
    HitIsRow(Found(matcher, s), 1, inRange, test, k);
    var h := Hits(Found(matcher, s), 1, inRange, test)[k];
    InRangeReads(matcher, s, h.idx, h.idx);
  }

  lemma {:induction false} MatchingAlike(m: LogEntry -> bool, n: LogEntry -> bool, s: seq<LogEntry>)
    requires forall e :: m(e) == n(e)
    ensures Matching(m, s) == Matching(n, s)
  {
    if s != [] {
      MatchingAlike(m, n, s[1..]);
    }
  }

  /** A filter as the dialog normalises it finds the same rows as the filter as typed, in every state. */
  lemma NormalizedFilterFindsTheSame(matcher: Matcher, s: Service, f: Filter)
    requires FM.KeepsSeparators(matcher.lower)
    ensures Found(matcher, Filtered(s, Some(FM.NormalizeAll(f)))) == Found(matcher, Filtered(s, Some(f)))
  {
    hide FM.Matches, FM.HostFilter, FM.NormalizeAll, FM.KeepsSeparators, Matching;
    var m, n := Passes(matcher, FM.HostFilter(FM.NormalizeAll(f))), Passes(matcher, FM.HostFilter(f));
    forall e: LogEntry
      ensures m(e) == n(e)
    {
      var fields := matcher.parse(e.text);
      FM.NormalizeAllKeepsMeaning(matcher.lower, f, FM.Row(fields.pid, fields.proc, fields.msg, e.file));
    }
    MatchingAlike(m, n, Reverse(Stored(s)));
  }
}
