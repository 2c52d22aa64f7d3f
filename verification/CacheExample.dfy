/** A count that is overtaken: the data change between two windows of a scan. */
module CacheExample {
  import opened Prelude
  import opened Entries
  import opened ChunkStore
  import opened Paging
  import opened Views
  import opened Pagination
  import opened CacheProtocol

  /** Two stored rows, and none. */
  function Two(x: LogEntry, y: LogEntry): PagedReader {
    PagedReader(Manifest([ChunkMeta(1, 2, 0)], 2, None), map[1 := [x, y]])
  }

  const NOTHING := PagedReader(Manifest([], 0, None), map[])

  lemma TwoRows(x: LogEntry, y: LogEntry)
    ensures Two(x, y).WellStored() && Two(x, y).Data() == [x, y]
    ensures NOTHING.WellStored() && NOTHING.Data() == []
  {
    var chunks, disk := Two(x, y).manifest.chunks, Two(x, y).disk;
    assert chunks[..0] == [];
    assert Contents(chunks, disk) == Contents([], disk) + [x, y];
  }

  function ScanEvents(f: Filter, x: LogEntry, y: LogEntry): seq<Event> {
    [DirOpens("d", Two(x, y)), SetsFilter(Some(f)), AsksTotal(0), ReloadBegins, ReloadOpens(NOTHING), Resumes(0)]
  }

  /** The service once the directory is open and the filter set, and after the reload. */
  function Before(f: Filter, x: LogEntry, y: LogEntry): Service {
    Service(Some("d"), Some(Two(x, y)), 2, false, [], 0, FM.HostFilter(f), None, None)
  }

  function After(f: Filter): Service {
    Service(Some("d"), Some(NOTHING), 3, false, [], 0, FM.HostFilter(f), None, None)
  }

  ghost function ScanStage(f: Filter, x: LogEntry, y: LogEntry, n: nat): World
    requires FM.HostFilter(f).Some?
  {
    var key := Key(FM.HostFilter(f).value, 2, false);
    match n
    case 0 => BEGIN
    case 1 => World(Service(Some("d"), Some(Two(x, y)), 1, false, [], 0, None, None, None), map[])
    case 2 => World(Before(f, x, y), map[])
    case 3 => World(Before(f, x, y), map[0 := Scan(key, 2, 0, 0, [x])])
    case 4 => World(Before(f, x, y), map[0 := Scan(key, 2, 0, 0, [x])])
    case 5 => World(After(f), map[0 := Scan(key, 2, 0, 0, [x])])
    case _ => World(After(f), map[0 := Scan(key, 2, 1, 1, [])])
  }

  ghost predicate ScanStep(matcher: Matcher, f: Filter, x: LogEntry, y: LogEntry, n: nat)
    requires FM.HostFilter(f).Some? && n < 6
  {
    var w, e := ScanStage(f, x, y, n), ScanEvents(f, x, y)[n];
    Enabled(w, e) && Next(matcher, 1, w, e) == ScanStage(f, x, y, n + 1)
  }

  lemma Opens(matcher: Matcher, f: Filter, x: LogEntry, y: LogEntry)
    requires FM.HostFilter(f).Some?
    ensures ScanStep(matcher, f, x, y, 0) && ScanStep(matcher, f, x, y, 1)
  {
    TwoRows(x, y);
    hide PagedReader.WellStored, FM.HostFilter;
  }

  lemma Asks(matcher: Matcher, f: Filter, x: LogEntry, y: LogEntry)
    requires FM.HostFilter(f).Some?
    ensures ScanStep(matcher, f, x, y, 2)
  {
    TwoRows(x, y);
    hide PagedReader.WellStored, PagedReader.Data, FM.HostFilter, Passes;
    assert [x, y][0..1] == [x];
  }

  lemma Reloads(matcher: Matcher, f: Filter, x: LogEntry, y: LogEntry)
    requires FM.HostFilter(f).Some?
    ensures ScanStep(matcher, f, x, y, 3) && ScanStep(matcher, f, x, y, 4)
  {
    TwoRows(x, y);
    hide PagedReader.WellStored, FM.HostFilter;
  }

  lemma ReadsOn(matcher: Matcher, f: Filter, x: LogEntry, y: LogEntry)
    requires FM.HostFilter(f).Some? && Passes(matcher, FM.HostFilter(f))(x)
    ensures ScanStep(matcher, f, x, y, 5)
  {
    TwoRows(x, y);
    MatchingOne(Passes(matcher, FM.HostFilter(f)), x);
    hide PagedReader.WellStored, PagedReader.Data, FM.HostFilter, Passes, Matching;
  }

  /** Two rows pass the filter; while they are counted in windows of one, the service reloads and finds no rows.
      The count returned is 1: neither the 2 of the data it began on nor the 0 of the data it ends on. */
  lemma OvertakenCount(matcher: Matcher, f: Filter, x: LogEntry, y: LogEntry) returns (worlds: seq<World>)
    requires FM.HostFilter(f).Some? && Passes(matcher, FM.HostFilter(f))(x) && Passes(matcher, FM.HostFilter(f))(y)
    ensures IsRun(matcher, 1, ScanEvents(f, x, y), worlds) && worlds[0] == BEGIN
    ensures Enabled(worlds[6], Resumes(0)) && Resume(matcher, worlds[6], 0, 1).1 == Some(1)
    ensures |Found(matcher, worlds[2].service)| == 2 && |Found(matcher, worlds[6].service)| == 0
  {
    Opens(matcher, f, x, y);
    Asks(matcher, f, x, y);
    Reloads(matcher, f, x, y);
    ReadsOn(matcher, f, x, y);
    ScanEnds(matcher, f, x, y);
    FoundThen(matcher, f, x, y);
    hide Next, Enabled, Resume, FM.HostFilter, Passes, Found, Before, After;
    worlds := seq(7, n requires 0 <= n < 7 => ScanStage(f, x, y, n));
    assert forall i :: 0 <= i < 6 ==> ScanStep(matcher, f, x, y, i);
  }

  lemma ScanEnds(matcher: Matcher, f: Filter, x: LogEntry, y: LogEntry)
    requires FM.HostFilter(f).Some?
    ensures var w := ScanStage(f, x, y, 6);
            Enabled(w, Resumes(0)) && Resume(matcher, w, 0, 1).1 == Some(1)
  {
    hide FM.HostFilter, Passes;
    NoneMatches(Passes(matcher, FM.HostFilter(f)));
  }

  lemma NoneMatches(m: LogEntry -> bool)
    ensures Matching(m, []) == []
  {
  }

  lemma FoundThen(matcher: Matcher, f: Filter, x: LogEntry, y: LogEntry)
    requires FM.HostFilter(f).Some? && Passes(matcher, FM.HostFilter(f))(x) && Passes(matcher, FM.HostFilter(f))(y)
    ensures |Found(matcher, Before(f, x, y))| == 2 && |Found(matcher, After(f))| == 0
  {
    TwoRows(x, y);
    var m := Passes(matcher, FM.HostFilter(f));
    hide PagedReader.WellStored, PagedReader.Data, FM.HostFilter, Passes;
    assert Reverse([x, y]) == [y] + [x] && Reverse<LogEntry>([]) == [];
    MatchingAppend(m, [y], [x]);
    MatchingOne(m, x);
    MatchingOne(m, y);
  }

  /** A filter and a line it passes: the one-letter message under itself. */
  lemma OneLetterPasses(ts: int, file: string)
    ensures var matcher, f := Matcher(s => s, t => Fields("", "", t)), FM.Filter("", "", "", "x");
            FM.HostFilter(f).Some? && Passes(matcher, FM.HostFilter(f))(LogEntry(ts, file, "x", None, None))
  {
    assert "x"[1..] == [] && "x"[..1] == "x";
    assert FL.Trim("x") == "x" && FL.Trim("") == "";
    FL.ParseUniform("x");
    FL.CutOne("x", FL.IsComma);
    FL.WordsOfToken("x");
    assert ["x"][1..] == [];
    var groups := FL.ParseGroups("x");
    assert groups == [["x"]];
    assert FM.StandsAt("x", "x", 0);
    assert FM.AllIn(groups[0], "x");
    var same: FM.Lowering := s => s;
    assert FM.MatchText(same, "x", "x");
    hide FM.MatchText, FM.MatchFile;
    var f := FM.Filter("", "", "", "x");
    assert FM.HostFilter(f) == Some(f);
    assert FM.Matches(same, Some(f), FM.Row("", "", "x", file));
  }
}
