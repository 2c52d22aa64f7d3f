/** From a directory to the rows on screen: a file-merge session and the pagination service it leaves behind. */
module Session {
  import opened Prelude
  import opened Entries
  import opened Directory
  import opened Merging
  import opened FullMerge
  import opened TypePass
  import opened MergeSession
  import opened ChunkStore
  import opened Pagination
  import C = ChunkWriting
  import M = ChunkProtocol
  import P = Paging
  import R = ChunkRuns
  import StoredRuns
  import V = Views
  import W = Warmup

  /** Where the merge is stored: the directory, the parts found there, the chunk size, the announced total. */
  datatype Output = Output(dir: string, files: Disk, chunkMaxLines: int, totalLines: Option<int>)

  /** Switches the service to a writing of the merged batches, whatever it served before; the calls of the writing
      may overlap in any way. `early` is the reader opened after the first chunk, if any. */
  method Publish(service: PaginationService, batches: seq<seq<LogEntry>>, wr: C.Writing, out: Output, early: Option<P.PagedReader>)
    requires Sound(service.State()) && (early.Some? ==> early.value.WellStored()) && C.Writes(wr, batches, out.chunkMaxLines)
    modifies service
    ensures Sound(service.State()) && service.filter == old(service.filter) && !service.warmActive
    ensures Stored(service.State()) == M.Recorded(wr.run[wr.saved])
    ensures C.Finished(wr) ==> multiset(Stored(service.State())) == multiset(Flatten(batches))
    ensures C.Finished(wr) && R.InTurn(wr.run, wr.steps, wr.saved) ==> Stored(service.State()) == Flatten(batches)
  {
    StoredRuns.WritingReads(wr, batches, out.chunkMaxLines, out.totalLines);
    var reader := StoredRuns.ReaderOf(wr.run[wr.saved], wr.run[wr.read], out.totalLines);
    hide StoredRuns.ReaderOf, M.Recorded, Flatten, C.Finished, R.InTurn;
    service.SetManifestDir(out.dir, if early.Some? then early.value else reader);
    service.Reload(reader);
  }

  /** The same with the chunk writer itself, each append made when the one before has ended. */
  method PublishInTurn(service: PaginationService, batches: seq<seq<LogEntry>>, out: Output, early: Option<P.PagedReader>)
    requires Sound(service.State()) && (early.Some? ==> early.value.WellStored())
    modifies service
    ensures Sound(service.State()) && service.filter == old(service.filter) && !service.warmActive
    ensures Stored(service.State()) == Flatten(batches)
  {
    hide Holds, Contents, Flatten, P.Opened;
    var manifest, disk := StoreAll(batches, out.chunkMaxLines, out.files, 0, out.totalLines);
    NoChunksNoLines(manifest, disk, Flatten(batches));
    P.OpenServesWhatIsHeld(manifest, disk, Flatten(batches));
    var reader := P.PagedReader(P.Opened(manifest), disk);
    service.SetManifestDir(out.dir, if early.Some? then early.value else reader);
    service.Reload(reader);
  }

  lemma NoChunksNoLines(manifest: Manifest, disk: Disk, data: seq<LogEntry>)
    requires Holds(manifest.chunks, disk, data) && manifest.mergedLines == |data|
    ensures manifest.chunks == [] ==> manifest.mergedLines == 0
  {
  }

  /** Whether a session puts something new on show: a disk merge always does; a skipped one does if there is a
      valid line and the manager's warmup ran, or the count failed and no memory buffer is left from before. */
  ghost predicate Replaces(p: Parsing, dir: seq<LogFile>, threshold: int, counted: bool, warmed: bool, wasWarm: bool) {
    !Skips(p, dir, threshold, counted) || (ValidLinesOf(p, dir) != [] && (warmed || (!counted && !wasWarm)))
  }

  /** A whole session on a service in any state. If it replaces nothing, the service is left as it was. Else a
      skipped session serves exactly what it shows; a disk merge serves what the writing recorded, which is what is
      shown if the calls were made in turn, and a permutation of it if only the remainder came last. The writer
      may turn any batches into any writing of them. */
  method Serve(service: PaginationService, p: Parsing, dir: seq<LogFile>, lc: (string, string) -> int, uc: (string, string) -> int,
               chunkSize: nat, threshold: int, prefetch: nat, batchSize: int, warmed: bool, counted: bool,
               writer: seq<seq<LogEntry>> -> C.Writing, out: Output, early: Option<P.PagedReader>)
    returns (skipped: bool, shown: seq<Item>, wr: Option<C.Writing>)
    requires IsCollation(lc) && IsCollation(uc) && chunkSize >= 1 && prefetch >= 1 && threshold <= W.MAX_SAFE_INTEGER
    requires Sound(service.State()) && (early.Some? ==> early.value.WellStored())
    requires forall batches :: C.Writes(writer(batches), batches, out.chunkMaxLines)
    modifies service
    ensures Sound(service.State()) && service.filter == old(service.filter)
    ensures skipped <==> Skips(p, dir, threshold, counted)
    ensures !Replaces(p, dir, threshold, counted, warmed, old(service.warmActive)) ==> service.State() == old(service.State())
    ensures skipped && Replaces(p, dir, threshold, counted, warmed, old(service.warmActive)) ==>
              Stored(service.State()) == EntriesOf(shown)
    ensures !skipped ==> wr.Some? && wr.value.saved <= |wr.value.steps| < |wr.value.run| && Written(service.State(), wr.value, shown)
    ensures Complete(p, dir, shown) <==> warmed || !counted || CountTotal(dir) > threshold || ValidLinesOf(p, dir) == []
    ensures NonIncreasing(TimesOf(EntriesOf(shown)))
  {
    hide IsCollation, CountTotal, W.MAX_SAFE_INTEGER, ValidLinesOf, Flatten, Complete, Skips, C.Writes, C.Finished, R.InTurn, M.Recorded;
    wr := None;
    var warm, batches;
    skipped, warm, batches, shown := RunSession(p, dir, lc, uc, chunkSize, threshold, prefetch, batchSize, warmed, counted);
    EmptyIsComplete(p, dir);
    ShowsNothing(p, dir, shown);
    if warm != [] {
      service.SeedWarmupBuffer(EntriesOf(warm), |warm|);
    }
    if skipped {
      if !service.warmActive && shown != [] {
        service.SeedWarmupBuffer(EntriesOf(shown), |shown|);
      }
    } else {
      wr := Some(writer(batches));
      WritingFits(wr.value, batches, out.chunkMaxLines);
      Publish(service, batches, wr.value, out, early);
    }
  }

  /** What the service serves after a writing of what is shown. */
  ghost predicate Written(s: Service, wr: C.Writing, shown: seq<Item>)
    requires wr.saved <= |wr.steps| < |wr.run|
  {
    && !s.warmActive && Stored(s) == M.Recorded(wr.run[wr.saved])
    && (C.Finished(wr) ==> multiset(Stored(s)) == multiset(EntriesOf(shown)))
    && (C.Finished(wr) && R.InTurn(wr.run, wr.steps, wr.saved) ==> Stored(s) == EntriesOf(shown))
  }

  lemma WritingFits(wr: C.Writing, batches: seq<seq<LogEntry>>, chunkMaxLines: int)
    requires C.Writes(wr, batches, chunkMaxLines)
    ensures wr.saved <= |wr.steps| < |wr.run|
  {
  }

  /** A complete list shows nothing exactly when there is no valid line. */
  lemma ShowsNothing(p: Parsing, dir: seq<LogFile>, shown: seq<Item>)
    ensures Complete(p, dir, shown) ==> (shown == [] <==> ValidLinesOf(p, dir) == [])
  {
    hide Complete, ValidLinesOf;
    if Complete(p, dir, shown) {
      CompleteLength(p, dir, shown);
    }
  }

  /** A directory of one line, counted and within any positive threshold, without a warmup: the session replaces
      nothing, so whatever the service showed before stays on show. */
  lemma EarlierRowsStay(p: Parsing, threshold: int, wasWarm: bool)
    requires threshold >= 1
    ensures var dir := [LogFile("a.log", "a", -1, "x", false)];
            ValidLinesOf(p, dir) != [] && !Replaces(p, dir, threshold, true, false, wasWarm)
  {
    hide CountTotal, ValidLinesOf, Complete;
    UnwarmedSkipLosesALine(p);
    EmptyIsComplete(p, [LogFile("a.log", "a", -1, "x", false)]);
  }

  /** A directory without a valid line within the threshold: warmed or not, nothing is replaced. */
  lemma EmptyDirectoryKeepsRows(p: Parsing, threshold: int, counted: bool, warmed: bool, wasWarm: bool)
    requires threshold >= 0
    ensures !Replaces(p, [], threshold, counted, warmed, wasWarm)
  {
  }

  /** The rows of an unfiltered service after a session: numbered from 1, in rising time, each row the entry
      shown at the mirrored place. */
  lemma ServedRows(matcher: Matcher, s: Service, shown: seq<Item>, a: int, b: int)
    requires Sound(s) && s.filter.None? && Stored(s) == EntriesOf(shown) && 1 <= a <= b <= |shown|
    requires NonIncreasing(TimesOf(EntriesOf(shown)))
    ensures var rows := RangeView(matcher, s, a, b);
            && |rows| == b - a + 1
            && (forall i :: 0 <= i < |rows| ==> rows[i] == V.Row(a + i, shown[|shown| - a - i].entry))
            && forall i, j :: 0 <= i < j < |rows| ==> rows[i].entry.ts <= rows[j].entry.ts
  {
    hide RangeView, Found;
    var stored := EntriesOf(shown);
    assert Found(matcher, s) == Reverse(stored) by { FoundWithoutFilter(matcher, s); }
    InRangeReads(matcher, s, a, b);
    var rows := RangeView(matcher, s, a, b);
    forall i, j | 0 <= i < j < |rows|
      ensures rows[i].entry.ts <= rows[j].entry.ts
    {
      assert TimesOf(stored)[|shown| - a - j] >= TimesOf(stored)[|shown| - a - i];
    }
  }

  lemma FoundWithoutFilter(matcher: Matcher, s: Service)
    requires s.filter.None?
    ensures Found(matcher, s) == Reverse(Stored(s))
  {
    NoFilterKeepsAll(matcher, Reverse(Stored(s)));
  }
}
