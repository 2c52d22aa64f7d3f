/** What the reader makes of the manifest while the writer is at work: the chunk protocol's runs, read back. */
module StoredRuns {
  import opened Prelude
  import opened Entries
  import opened ChunkStore
  import C = ChunkProtocol
  import R = ChunkRuns
  import P = Paging
  import W = ChunkWriting

  /** The part files of a state, by number. */
  function DiskOf(parts: seq<C.Part>): Disk {
    if parts == [] then map[]
    else DiskOf(parts[..|parts| - 1])[parts[|parts| - 1].number := parts[|parts| - 1].lines]
  }

  /** The manifest as stored: of each chunk its part's number, its length and its start. */
  function StoredChunks(chunks: seq<C.Chunk>): (r: seq<ChunkMeta>)
    ensures |r| == |chunks|
    ensures forall i :: 0 <= i < |r| ==> r[i] == ChunkMeta(chunks[i].part.number, |chunks[i].part.lines|, chunks[i].start)
  {
    seq(|chunks|, i requires 0 <= i < |chunks| =>
      ChunkMeta(chunks[i].part.number, |chunks[i].part.lines|, chunks[i].start))
  }

  function StoredManifest(w: C.World, totalLines: Option<int>): Manifest {
    Manifest(StoredChunks(w.chunks), w.mergedSoFar, totalLines)
  }

  ghost predicate NumbersRise(parts: seq<C.Part>) {
    forall i, j :: 0 <= i < j < |parts| ==> parts[i].number < parts[j].number
  }

  lemma {:induction false} PartIsOnDisk(parts: seq<C.Part>, p: C.Part)
    requires NumbersRise(parts) && p in parts
    ensures p.number in DiskOf(parts) && DiskOf(parts)[p.number] == p.lines
  {
    var n := |parts| - 1;
    if p != parts[n] {
      var i :| 0 <= i < |parts| && parts[i] == p;
      assert parts[..n][i] == p;
      PartIsOnDisk(parts[..n], p);
      assert parts[i].number < parts[n].number;
    }
  }

  ghost predicate OnDisk(chunks: seq<C.Chunk>, disk: Disk) {
    forall i :: 0 <= i < |chunks| ==>
      chunks[i].part.number in disk && disk[chunks[i].part.number] == chunks[i].part.lines != []
  }

  lemma {:induction false} ContentsOfChunks(chunks: seq<C.Chunk>, disk: Disk)
    requires OnDisk(chunks, disk)
    ensures Contents(StoredChunks(chunks), disk) == Flatten(C.LinesOf(C.PartsOf(chunks)))
    ensures |Contents(StoredChunks(chunks), disk)| == C.SumLines(chunks)
  {
    if chunks == [] {
      assert C.LinesOf(C.PartsOf(chunks)) == [];
    } else {
      hide StoredChunks, Flatten, C.LinesOf, C.PartsOf;
      var n := |chunks| - 1;
      ContentsOfChunks(chunks[..n], disk);
      assert StoredChunks(chunks)[..n] == StoredChunks(chunks[..n]);
      assert C.LinesOf(C.PartsOf(chunks)) == C.LinesOf(C.PartsOf(chunks[..n])) + [chunks[n].part.lines];
      FlattenSnoc(C.LinesOf(C.PartsOf(chunks[..n])), chunks[n].part.lines);
    }
  }

  lemma StartsWhereTheRestEnds(chunks: seq<C.Chunk>, merged: nat, disk: Disk, i: int)
    requires OnDisk(chunks, disk) && C.TileTo(chunks, merged) && 0 <= i < |chunks|
    ensures var c := StoredChunks(chunks)[i];
            && c.file in disk && c.lines == |disk[c.file]| > 0
            && c.start == |Contents(StoredChunks(chunks)[..i], disk)|
  {
    hide StoredChunks, Contents, Flatten, C.LinesOf, C.PartsOf, C.SumLines;
    ContentsOfChunks(chunks[..i], disk);
    assert StoredChunks(chunks[..i]) == StoredChunks(chunks)[..i];
  }

  lemma TilingChunksHold(chunks: seq<C.Chunk>, merged: nat, disk: Disk)
    requires OnDisk(chunks, disk) && C.TileTo(chunks, merged)
    ensures Holds(StoredChunks(chunks), disk, Flatten(C.LinesOf(C.PartsOf(chunks))))
    ensures merged == |Flatten(C.LinesOf(C.PartsOf(chunks)))|
  {
    hide StoredChunks, Contents, Flatten, C.LinesOf, C.PartsOf, C.SumLines;
    ContentsOfChunks(chunks, disk);
    forall i | 0 <= i < |chunks|
      ensures var c := StoredChunks(chunks)[i];
              && c.file in disk && c.lines == |disk[c.file]| > 0
              && c.start == |Contents(StoredChunks(chunks)[..i], disk)|
    {
      StartsWhereTheRestEnds(chunks, merged, disk, i);
    }
  }

  lemma {:induction false} PartsGrow(run: seq<C.World>, steps: seq<C.Step>, startIndex: nat, chunkMaxLines: int, i: int, j: int)
    requires C.IsRun(run, steps, startIndex, chunkMaxLines) && 0 <= i <= j < |run|
    ensures run[i].parts <= run[j].parts
    decreases j
  {
    if i < j {
      PartsGrow(run, steps, startIndex, chunkMaxLines, i, j - 1);
      PartsStep(run[j - 1], steps[j - 1], chunkMaxLines);
    }
  }

  lemma PartsStep(w: C.World, s: C.Step, chunkMaxLines: int)
    requires C.Enabled(w, s)
    ensures w.parts <= C.Next(w, s, chunkMaxLines).parts
  {
  }

  lemma RecordedPartsAreOnDisk(w: C.World, later: seq<C.Part>)
    requires C.Flow(w) && C.Reported(w) && w.parts <= later && NumbersRise(later)
    ensures OnDisk(w.chunks, DiskOf(later))
  {
    forall i | 0 <= i < |w.chunks|
      ensures var p := w.chunks[i].part; p.number in DiskOf(later) && DiskOf(later)[p.number] == p.lines != []
    {
      var p := w.chunks[i].part;
      assert C.PartsOf(w.chunks)[i] == p;
      assert p in w.parts;
      PartIsOnDisk(later, p);
    }
  }

  /** The reader opened on the manifest of one state and the part files of another. */
  function ReaderOf(saved: C.World, onDisk: C.World, totalLines: Option<int>): P.PagedReader {
    P.PagedReader(P.Opened(StoredManifest(saved, totalLines)), DiskOf(onDisk.parts))
  }

  /** In every interleaving of the writer's callers, a reader opened at any later moment on the manifest saved at
      one is in order and serves exactly the parts recorded by then. */
  lemma EveryManifestReads(run: seq<C.World>, steps: seq<C.Step>, startIndex: nat, chunkMaxLines: int, i: int, j: int,
                           totalLines: Option<int>)
    requires C.IsRun(run, steps, startIndex, chunkMaxLines) && 0 <= i <= j < |run|
    ensures var r := ReaderOf(run[i], run[j], totalLines); r.WellStored() && r.Data() == C.Recorded(run[i])
  {
    hide C.Chained, C.Next, C.Enabled, P.Opened, Holds, Contents, DiskOf;
    C.EveryInterleavingIsSafe(run, steps, startIndex, chunkMaxLines, i);
    C.EveryInterleavingIsSafe(run, steps, startIndex, chunkMaxLines, j);
    PartsGrow(run, steps, startIndex, chunkMaxLines, i, j);
    var w, disk := run[i], DiskOf(run[j].parts);
    RecordedPartsAreOnDisk(w, run[j].parts);
    TilingChunksHold(w.chunks, w.mergedSoFar, disk);
    assert w.chunks == [] ==> w.mergedSoFar == 0;
    P.OpenServesWhatIsHeld(StoredManifest(w, totalLines), disk, C.Recorded(w));
  }

  /** Overlapping appends and a remainder asked for once every entry is pushed: when all calls have returned, the
      reader serves every appended entry exactly once. */
  lemma OverlappingAppendsLoseNothing(run: seq<C.World>, steps: seq<C.Step>, startIndex: nat, chunkMaxLines: int,
                                      r: int, i: int, totalLines: Option<int>)
    requires C.IsRun(run, steps, startIndex, chunkMaxLines) && 0 <= r < i < |run| && C.AtRest(run[i])
    requires steps[r].Remainder? && R.AllPushed(run[r]) && forall k :: r < k < i ==> !steps[k].Append?
    ensures var reader := ReaderOf(run[i], run[i], totalLines);
            reader.WellStored() && multiset(reader.Data()) == multiset(R.Appended(steps, i))
  {
    hide C.IsRun, ReaderOf, C.Recorded;
    EveryManifestReads(run, steps, startIndex, chunkMaxLines, i, i, totalLines);
    R.RemainderLeavesNothing(run, steps, startIndex, chunkMaxLines, r, i);
  }

  /** Appends made in turn and then the remainder: the reader serves what was appended, in order. */
  lemma AppendsInTurnKeepOrder(run: seq<C.World>, steps: seq<C.Step>, startIndex: nat, chunkMaxLines: int, r: int,
                               i: int, totalLines: Option<int>)
    requires C.IsRun(run, steps, startIndex, chunkMaxLines) && 0 <= r < i < |run| && C.AtRest(run[i]) && R.InTurn(run, steps, i)
    requires steps[r].Remainder? && forall k :: r < k < i ==> !steps[k].Append?
    ensures var reader := ReaderOf(run[i], run[i], totalLines);
            reader.WellStored() && reader.Data() == R.Appended(steps, i)
  {
    assert C.AtRest(run[r]);
    hide C.IsRun, ReaderOf, C.Recorded;
    EveryManifestReads(run, steps, startIndex, chunkMaxLines, i, i, totalLines);
    R.RemainderLeavesNothing(run, steps, startIndex, chunkMaxLines, r, i);
    R.InTurnInOrder(run, steps, startIndex, chunkMaxLines, i);
  }

  /** What is read of a writing of some batches: the recorded parts; if the remainder was asked for once all was
      pushed, every entry once; and if also every call was made in turn, the batches end to end. */
  lemma WritingReads(wr: W.Writing, batches: seq<seq<LogEntry>>, chunkMaxLines: int, totalLines: Option<int>)
    requires W.Writes(wr, batches, chunkMaxLines)
    ensures var r := ReaderOf(wr.run[wr.saved], wr.run[wr.read], totalLines);
            && r.WellStored() && r.Data() == C.Recorded(wr.run[wr.saved])
            && (W.Finished(wr) ==> multiset(r.Data()) == multiset(Flatten(batches)))
            && (W.Finished(wr) && R.InTurn(wr.run, wr.steps, wr.saved) ==> r.Data() == Flatten(batches))
  {
    var i := wr.saved;
    EveryManifestReads(wr.run, wr.steps, 0, chunkMaxLines, i, wr.read, totalLines);
    if r :| W.RemainderAt(wr, r) {
      hide C.IsRun, ReaderOf, C.Recorded, Flatten;
      R.RemainderLeavesNothing(wr.run, wr.steps, 0, chunkMaxLines, r, i);
      if R.InTurn(wr.run, wr.steps, i) {
        R.InTurnInOrder(wr.run, wr.steps, 0, chunkMaxLines, i);
      }
    }
  }
}
