/** The pagination service under interleaving: every `await` lets other calls in, and counting scans resume
    with whatever reader, filter and version the service has by then. */
module CacheProtocol {
  import opened Prelude
  import opened Entries
  import opened ChunkStore
  import opened Paging
  import opened Views
  import opened Scans
  import opened Pagination

  /** A count in progress. It fixed its key and total when it began; `part` is the window being read, from the
      reader of the moment the read was issued. */
  datatype Scan = Scan(key: Key, total: nat, from: nat, cnt: nat, part: seq<LogEntry>)

  datatype World = World(service: Service, scans: map<nat, Scan>)

  /** Opening a directory and reloading may complete at any time, on whatever is stored by then. */
  datatype Event =
    | DirOpens(dir: string, reader: PagedReader)
    | ReloadBegins
    | ReloadOpens(reader: PagedReader)
    | Seeds(entries: seq<LogEntry>, virtualTotal: int)
    | SetsFilter(filter: Option<Filter>)
    | AsksTotal(id: nat)
    | Resumes(id: nat)

  const BEGIN := World(START, map[])

  ghost function ReadNext(r: PagedReader, from: nat, total: nat, window: nat): seq<LogEntry> {
    Slice(r.Data(), from, Min(total, from + window))
  }

  /** Asking for the filtered total: the answer if there is one at once, else a scan is under way. */
  ghost function Ask(matcher: Matcher, w: World, id: nat, window: nat): (World, Option<nat>)
    requires w.service.filter.Some?
  {
    var s := w.service;
    if CacheHit(s) then (w, s.cacheTotal)
    else if s.warmActive then
      var total := |Matching(Passes(matcher, s.filter), s.warmBuffer)|;
      (w.(service := Cached(s, PresentKey(s), total)), Some(total))
    else if s.reader.None? then (w, Some(0))
    else
      var total := Max(0, s.reader.value.manifest.mergedLines);
      if total == 0 then (w.(service := Cached(s, PresentKey(s), 0)), Some(0))
      else (w.(scans := w.scans[id := Scan(PresentKey(s), total, 0, 0, ReadNext(s.reader.value, 0, total, window))]), None)
  }

  /** A window has been read: count it under the present filter, then read on from the present reader or store
      the count under the key of old. */
  ghost function Resume(matcher: Matcher, w: World, id: nat, window: nat): (World, Option<nat>)
    requires id in w.scans && w.service.reader.Some?
  {
    var s, scan := w.service, w.scans[id];
    var cnt := scan.cnt + |Matching(Passes(matcher, s.filter), scan.part)|;
    var from := scan.from + window;
    if from < scan.total
    then (w.(scans := w.scans[id := scan.(from := from, cnt := cnt, part := ReadNext(s.reader.value, from, scan.total, window))]), None)
    else (World(Cached(s, scan.key, cnt), w.scans - {id}), Some(cnt))
  }

  function Changed(s: Service, e: Event): Service
    requires !e.AsksTotal? && !e.Resumes?
  {
    match e
    case DirOpens(dir, reader) => DirOpened(s, dir, reader)
    case ReloadBegins => Cleared(s)
    case ReloadOpens(reader) => Reopened(s, reader)
    case Seeds(entries, virtualTotal) => Seeded(s, entries, virtualTotal)
    case SetsFilter(f) => Filtered(s, f)
  }

  ghost predicate Enabled(w: World, e: Event) {
    match e
    case DirOpens(_, reader) => reader.WellStored()
    case ReloadBegins => w.service.manifestDir.Some?
    case ReloadOpens(reader) => w.service.manifestDir.Some? && reader.WellStored()
    case Seeds(_, _) => true
    case SetsFilter(_) => true
    case AsksTotal(id) => w.service.filter.Some? && id !in w.scans
    case Resumes(id) => id in w.scans && w.service.reader.Some?
  }

  ghost function Next(matcher: Matcher, window: nat, w: World, e: Event): World
    requires Enabled(w, e)
  {
    match e
    case AsksTotal(id) => Ask(matcher, w, id, window).0
    case Resumes(id) => Resume(matcher, w, id, window).0
    case _ => w.(service := Changed(w.service, e))
  }

  ghost predicate IsRun(matcher: Matcher, window: nat, events: seq<Event>, worlds: seq<World>) {
    && |worlds| == |events| + 1
    && forall i :: 0 <= i < |events| ==> Enabled(worlds[i], events[i]) && worlds[i + 1] == Next(matcher, window, worlds[i], events[i])
  }

  // ---------- the invariant ----------

  /** A scan whose version is still the present one has counted the present rows up to where it stands. */
  ghost predicate OnTrack(matcher: Matcher, window: nat, s: Service, scan: Scan) {
    && s.filter == Some(scan.key.filter) && !s.warmActive && s.reader.Some?
    && scan.total == |s.reader.value.Data()|
    && scan.from < scan.total
    && scan.part == ReadNext(s.reader.value, scan.from, scan.total, window)
    && scan.cnt == |Matching(Passes(matcher, s.filter), s.reader.value.Data()[..scan.from])|
  }

  ghost predicate ScanOk(matcher: Matcher, window: nat, s: Service, scan: Scan) {
    && scan.cnt <= scan.from < scan.total && scan.from + |scan.part| <= Min(scan.total, scan.from + window)
    && scan.key.version <= s.version && (scan.key.version == s.version ==> OnTrack(matcher, window, s, scan))
  }

  ghost predicate ScansOk(matcher: Matcher, window: nat, w: World) {
    forall id :: id in w.scans ==> ScanOk(matcher, window, w.service, w.scans[id])
  }

  ghost predicate CacheOk(matcher: Matcher, s: Service) {
    && (s.cacheKey.Some? ==> s.cacheKey.value.version <= s.version)
    && (CacheHit(s) ==> s.cacheTotal.value == |Found(matcher, s)|)
  }

  ghost predicate Safe(matcher: Matcher, window: nat, w: World) {
    Sound(w.service) && CacheOk(matcher, w.service) && ScansOk(matcher, window, w)
  }

  // ---------- every step keeps it ----------

  /** What changes the data, the filter or the mode also moves the version on. */
  ghost predicate Moved(s: Service, t: Service) {
    t.version > s.version && (t.cacheKey == s.cacheKey || t.cacheKey.None?)
  }

  lemma MovingOnIsSafe(matcher: Matcher, window: nat, w: World, t: Service)
    requires Safe(matcher, window, w) && Moved(w.service, t) && Sound(t)
    ensures Safe(matcher, window, w.(service := t))
  {
  }

  lemma ChangesMoveOn(w: World, e: Event)
    requires Enabled(w, e) && !e.AsksTotal? && !e.Resumes? && Sound(w.service)
    ensures var t := Changed(w.service, e); Sound(t) && (t == w.service || Moved(w.service, t))
  {
    if e.SetsFilter? && e.filter.Some? {
      HostFilterIsActive(e.filter.value);
    }
  }

  lemma CachingIsSafe(matcher: Matcher, window: nat, w: World, key: Key, total: nat)
    requires Safe(matcher, window, w) && key.version <= w.service.version
    requires key.version == w.service.version ==> total == |Found(matcher, w.service)|
    ensures Safe(matcher, window, w.(service := Cached(w.service, key, total)))
  {
  }

  /** Scans change nothing of the service, and those that stay ok may come and go. */
  lemma ScanChangeIsSafe(matcher: Matcher, window: nat, w: World, id: nat, scan: Scan)
    requires Safe(matcher, window, w) && ScanOk(matcher, window, w.service, scan)
    ensures Safe(matcher, window, w.(scans := w.scans[id := scan]))
  {
  }

  lemma ScanEndIsSafe(matcher: Matcher, window: nat, w: World, id: nat)
    requires Safe(matcher, window, w)
    ensures Safe(matcher, window, w.(scans := w.scans - {id}))
  {
  }

  lemma FoundCount(matcher: Matcher, s: Service)
    ensures |Found(matcher, s)| == |Matching(Passes(matcher, s.filter), Stored(s))|
  {
    CountReverse(Passes(matcher, s.filter), Stored(s));
  }

  lemma NoneFound(matcher: Matcher, s: Service)
    requires Stored(s) == []
    ensures |Found(matcher, s)| == 0
  {
  }

  lemma WindowIsShort(r: PagedReader, from: nat, total: nat, window: nat)
    requires from < total && window >= 1
    ensures from + |ReadNext(r, from, total, window)| <= Min(total, from + window)
  {
  }

  lemma {:induction false} MatchingIsShorter(m: LogEntry -> bool, s: seq<LogEntry>)
    ensures |Matching(m, s)| <= |s|
  {
    if s != [] {
      MatchingIsShorter(m, s[1..]);
    }
  }

  /** A scan that begins is on track. */
  lemma BeginsOnTrack(matcher: Matcher, window: nat, s: Service)
    requires Sound(s) && s.filter.Some? && !s.warmActive && s.reader.Some? && s.reader.value.manifest.mergedLines > 0
    ensures var total := s.reader.value.manifest.mergedLines;
            OnTrack(matcher, window, s, Scan(PresentKey(s), total, 0, 0, ReadNext(s.reader.value, 0, total, window)))
  {
  }

  /** Asking keeps the invariant, and an answer given at once is the number of rows found. */
  lemma AskIsSafe(matcher: Matcher, w: World, id: nat, window: nat)
    requires Safe(matcher, window, w) && w.service.filter.Some? && id !in w.scans && window >= 1
    ensures var (v, answer) := Ask(matcher, w, id, window);
            Safe(matcher, window, v) && (answer.Some? ==> answer.value == |Found(matcher, w.service)|)
  {
    hide Found, Passes, Matching, OnTrack, ReadNext, IsActive, Contents, Holds;
    var s := w.service;
    if CacheHit(s) {
    } else if s.warmActive {
      FoundCount(matcher, s);
      CachingIsSafe(matcher, window, w, PresentKey(s), |Matching(Passes(matcher, s.filter), s.warmBuffer)|);
    } else if s.reader.None? || s.reader.value.manifest.mergedLines == 0 {
      NoneFound(matcher, s);
      CachingIsSafe(matcher, window, w, PresentKey(s), 0);
    } else {
      BeginsOnTrack(matcher, window, s);
      var total := s.reader.value.manifest.mergedLines;
      WindowIsShort(s.reader.value, 0, total, window);
      ScanChangeIsSafe(matcher, window, w, id, Scan(PresentKey(s), total, 0, 0, ReadNext(s.reader.value, 0, total, window)));
    }
  }

  /** The next window brings the count of the rows up to where it ends. */
  lemma WindowCounted(matcher: Matcher, window: nat, s: Service, scan: Scan)
    requires OnTrack(matcher, window, s, scan) && window >= 1
    ensures scan.cnt + |Matching(Passes(matcher, s.filter), scan.part)|
            == |Matching(Passes(matcher, s.filter), s.reader.value.Data()[..Min(scan.total, scan.from + window)])|
  {
    hide Passes, Contents;
    NextWindow(Passes(matcher, s.filter), s.reader.value.Data(), scan.from, Min(scan.total, scan.from + window));
  }

  /** A scan on track that ends has counted the rows found. */
  lemma EndsRight(matcher: Matcher, window: nat, s: Service, scan: Scan)
    requires OnTrack(matcher, window, s, scan) && window >= 1 && scan.from + window >= scan.total
    ensures scan.cnt + |Matching(Passes(matcher, s.filter), scan.part)| == |Found(matcher, s)|
  {
    hide Passes, Contents, Matching, Found, ReadNext;
    WindowCounted(matcher, window, s, scan);
    var data := s.reader.value.Data();
    assert data[..scan.total] == data;
    FoundCount(matcher, s);
  }

  /** Resuming keeps the invariant; a count that ends under the version it began under is right, and any other is
      at most the number of rows it set out to count. */
  lemma ResumeIsSafe(matcher: Matcher, w: World, id: nat, window: nat)
    requires Safe(matcher, window, w) && id in w.scans && w.service.reader.Some? && window >= 1
    ensures var (v, answer) := Resume(matcher, w, id, window);
            Safe(matcher, window, v) &&
            (answer.Some? ==> answer.value <= w.scans[id].total) &&
            (answer.Some? && w.scans[id].key.version == w.service.version ==> answer.value == |Found(matcher, w.service)|)
  {
    hide Found, Passes, Matching, ReadNext, IsActive, Contents, Holds, Sound, CacheOk;
    var s, scan := w.service, w.scans[id];
    assert ScanOk(matcher, window, s, scan);
    var cnt, from := scan.cnt + |Matching(Passes(matcher, s.filter), scan.part)|, scan.from + window;
    MatchingIsShorter(Passes(matcher, s.filter), scan.part);
    if from < scan.total {
      WindowIsShort(s.reader.value, from, scan.total, window);
      if scan.key.version == s.version {
        WindowCounted(matcher, window, s, scan);
      }
      ScanChangeIsSafe(matcher, window, w, id, scan.(from := from, cnt := cnt, part := ReadNext(s.reader.value, from, scan.total, window)));
    } else {
      if scan.key.version == s.version {
        EndsRight(matcher, window, s, scan);
      }
      CachingIsSafe(matcher, window, w, scan.key, cnt);
      ScanEndIsSafe(matcher, window, w.(service := Cached(s, scan.key, cnt)), id);
    }
  }

  lemma NextIsSafe(matcher: Matcher, window: nat, w: World, e: Event)
    requires Safe(matcher, window, w) && Enabled(w, e) && window >= 1
    ensures Safe(matcher, window, Next(matcher, window, w, e))
  {
    hide Sound, CacheOk, ScansOk, Changed, Ask, Resume;
    match e
    case AsksTotal(id) => AskIsSafe(matcher, w, id, window);
    case Resumes(id) => ResumeIsSafe(matcher, w, id, window);
    case _ =>
      ChangesMoveOn(w, e);
      if Changed(w.service, e) != w.service {
        MovingOnIsSafe(matcher, window, w, Changed(w.service, e));
      }
  }

  lemma BeginIsSafe(matcher: Matcher, window: nat)
    ensures Safe(matcher, window, BEGIN)
  {
  }

  /** In every state every interleaving reaches, a cached total that would be served is the number of rows the
      present filter finds in the present data. */
  lemma {:induction false} NoStaleTotal(matcher: Matcher, window: nat, events: seq<Event>, worlds: seq<World>, i: int)
    requires IsRun(matcher, window, events, worlds) && worlds[0] == BEGIN && window >= 1 && 0 <= i < |worlds|
    ensures Safe(matcher, window, worlds[i])
    ensures CacheHit(worlds[i].service) ==> worlds[i].service.cacheTotal.value == |Found(matcher, worlds[i].service)|
  {
    hide Found;
    BeginIsSafe(matcher, window);
    hide Sound, ScansOk, Next, Enabled, BEGIN;
    if i > 0 {
      NoStaleTotal(matcher, window, events, worlds, i - 1);
      NextIsSafe(matcher, window, worlds[i - 1], events[i - 1]);
    }
  }

  // ---------- what a version stands for ----------

  ghost predicate SameRows(s: Service, t: Service) {
    s.filter == t.filter && s.warmActive == t.warmActive && s.warmBuffer == t.warmBuffer && s.reader == t.reader
  }

  lemma VersionStep(matcher: Matcher, window: nat, w: World, e: Event)
    requires Enabled(w, e)
    ensures var v := Next(matcher, window, w, e);
            v.service.version >= w.service.version
            && (v.service.version == w.service.version ==> SameRows(w.service, v.service))
  {
    hide Passes, Matching, ReadNext, IsActive;
  }

  lemma {:induction false} SameVersionSameRows(matcher: Matcher, window: nat, events: seq<Event>, worlds: seq<World>, i: int, j: int)
    requires IsRun(matcher, window, events, worlds) && 0 <= i <= j < |worlds|
    ensures worlds[i].service.version <= worlds[j].service.version
    ensures worlds[i].service.version == worlds[j].service.version ==> SameRows(worlds[i].service, worlds[j].service)
    decreases j - i
  {
    hide Next, Enabled;
    if i < j {
      SameVersionSameRows(matcher, window, events, worlds, i, j - 1);
      VersionStep(matcher, window, worlds[j - 1], events[j - 1]);
    }
  }

  /** Two states of one run with the same version answer every read alike. */
  lemma SameVersionReadsAlike(matcher: Matcher, window: nat, events: seq<Event>, worlds: seq<World>, i: int, j: int, a: int, b: int)
    requires IsRun(matcher, window, events, worlds) && worlds[0] == BEGIN && window >= 1 && 0 <= i <= j < |worlds|
    requires worlds[i].service.version == worlds[j].service.version
    ensures Sound(worlds[i].service) && Sound(worlds[j].service)
    ensures RangeView(matcher, worlds[i].service, a, b) == RangeView(matcher, worlds[j].service, a, b)
  {
    hide FilteredView, WarmView, FileView, Matching, Passes, Next, Enabled, ScansOk, CacheOk, BEGIN;
    NoStaleTotal(matcher, window, events, worlds, i);
    NoStaleTotal(matcher, window, events, worlds, j);
    SameVersionSameRows(matcher, window, events, worlds, i, j);
  }
}
