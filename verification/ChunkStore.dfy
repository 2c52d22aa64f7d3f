/** The chunk store with awaited calls: the writer cuts what is appended into part files, the manifest
    records them, and the paged reader serves ranges of the whole. */
module ChunkStore {
  import opened Prelude
  import opened Entries
  import opened Sorting

  /** The part files on disk, by number. */
  type Disk = map<nat, seq<LogEntry>>

  datatype ChunkMeta = ChunkMeta(file: nat, lines: int, start: int)

  datatype WriteResult = WriteResult(file: nat, lines: nat)

  datatype Manifest = Manifest(chunks: seq<ChunkMeta>, mergedLines: int, totalLines: Option<int>)

  // ---------- what a manifest stands for ----------

  function FileOf(disk: Disk, n: nat): seq<LogEntry> {
    if n in disk then disk[n] else []
  }

  function Contents(chunks: seq<ChunkMeta>, disk: Disk): seq<LogEntry> {
    if chunks == [] then [] else Contents(chunks[..|chunks| - 1], disk) + FileOf(disk, chunks[|chunks| - 1].file)
  }

  /** The chunks stand end to end, each as long as its file, and together hold `data`. */
  ghost predicate Holds(chunks: seq<ChunkMeta>, disk: Disk, data: seq<LogEntry>) {
    && data == Contents(chunks, disk)
    && forall i :: 0 <= i < |chunks| ==>
         && chunks[i].file in disk
         && chunks[i].lines == |disk[chunks[i].file]| > 0
         && chunks[i].start == |Contents(chunks[..i], disk)|
  }

  lemma HoldsOneMore(chunks: seq<ChunkMeta>, disk: Disk, data: seq<LogEntry>, file: nat)
    requires Holds(chunks, disk, data) && file in disk && disk[file] != []
    ensures Holds(chunks + [ChunkMeta(file, |disk[file]|, |data|)], disk, data + disk[file])
  {
    var more := chunks + [ChunkMeta(file, |disk[file]|, |data|)];
    assert more[..|chunks|] == chunks;
    forall i | 0 <= i < |more|
      ensures more[i].start == |Contents(more[..i], disk)|
    {
      assert i < |chunks| ==> more[..i] == chunks[..i];
    }
  }

  lemma {:induction false} ContentsKept(chunks: seq<ChunkMeta>, disk: Disk, later: Disk)
    requires forall i :: 0 <= i < |chunks| ==>
        chunks[i].file in disk && chunks[i].file in later && later[chunks[i].file] == disk[chunks[i].file]
    ensures Contents(chunks, later) == Contents(chunks, disk)
  {
    if chunks != [] {
      ContentsKept(chunks[..|chunks| - 1], disk, later);
    }
  }

  /** Files written later, under other numbers, do not disturb what is held. */
  lemma HoldsOnGrowingDisk(chunks: seq<ChunkMeta>, disk: Disk, later: Disk, data: seq<LogEntry>)
    requires Holds(chunks, disk, data)
    requires forall n :: n in disk ==> n in later && later[n] == disk[n]
    ensures Holds(chunks, later, data)
  {
    ContentsKept(chunks, disk, later);
    forall i | 0 <= i < |chunks|
      ensures Contents(chunks[..i], later) == Contents(chunks[..i], disk)
    {
      ContentsKept(chunks[..i], disk, later);
    }
  }

  // ---------- the manifest writer ----------

  /** Rising start as a falling key, for the stable sort. */
  function StartKey(c: ChunkMeta): int { -c.start }

  function SortedChunks(chunks: seq<ChunkMeta>): seq<ChunkMeta> {
    StableSort(chunks, StartKey)
  }

  function EndOf(chunks: seq<ChunkMeta>): int {
    if chunks == [] then 0 else chunks[|chunks| - 1].start + chunks[|chunks| - 1].lines
  }

  lemma HoldsFalls(chunks: seq<ChunkMeta>, disk: Disk, data: seq<LogEntry>)
    requires Holds(chunks, disk, data)
    ensures Falling(chunks, StartKey) && EndOf(chunks) == |data|
  {
    forall i, j | 0 <= i < j < |chunks|
      ensures chunks[i].start <= chunks[j].start
    {
      ContentsGrow(chunks, disk, i, j);
    }
  }

  lemma {:induction false} ContentsGrow(chunks: seq<ChunkMeta>, disk: Disk, i: int, j: int)
    requires 0 <= i <= j <= |chunks|
    ensures |Contents(chunks[..i], disk)| <= |Contents(chunks[..j], disk)|
    decreases j
  {
    if i < j {
      ContentsGrow(chunks, disk, i, j - 1);
      assert chunks[..j][..j - 1] == chunks[..j - 1];
    }
  }

  lemma SortOfHeld(chunks: seq<ChunkMeta>, disk: Disk, data: seq<LogEntry>)
    requires Holds(chunks, disk, data)
    ensures SortedChunks(chunks) == chunks
  {
    HoldsFalls(chunks, disk, data);
    StableSortIsStable(chunks, StartKey);
    SortOfFalling(chunks, StableSort(chunks, StartKey), StartKey);
  }

  class ManifestWriter {
    var chunks: seq<ChunkMeta>
    var chunkCount: int
    var mergedLines: int
    var totalLines: Option<int>

    constructor ()
      ensures chunks == [] && chunkCount == 0 && mergedLines == 0 && totalLines == None
    {
      chunks, chunkCount, mergedLines, totalLines := [], 0, 0, None;
    }

    /** Loading a stored manifest repairs it: bad chunks go, the rest is sorted, the counts are redone, and a
        stated total below the merged count is raised to it. */
    constructor Load(stored: Manifest)
      ensures chunks == SortedChunks(Sane(stored.chunks)) && chunkCount == |chunks| && mergedLines == EndOf(chunks)
      ensures totalLines == if stored.totalLines.None? then None else Some(Max(stored.totalLines.value, mergedLines))
    {
      var kept := SortedChunks(Sane(stored.chunks));
      var merged := if |kept| > 0 then kept[|kept| - 1].start + kept[|kept| - 1].lines else 0;
      chunks := kept;
      chunkCount := |kept|;
      mergedLines := merged;
      totalLines := if stored.totalLines.Some? && stored.totalLines.value < merged then Some(merged) else stored.totalLines;
    }

    method SetTotal(total: Option<int>)
      modifies this`totalLines
      ensures totalLines == if total.Some? then total else old(totalLines)
    {
      if total.Some? {
        totalLines := total;
      }
    }

    method AddChunk(file: Option<nat>, lines: int, start: int)
      modifies this`chunks, this`chunkCount, this`mergedLines
      ensures file.None? || lines <= 0 ==>
                chunks == old(chunks) && mergedLines == old(mergedLines) && chunkCount == old(chunkCount)
      ensures file.Some? && lines > 0 ==>
                && chunks == SortedChunks(old(chunks) + [ChunkMeta(file.value, lines, Max(0, start))])
                && chunkCount == |chunks| && mergedLines == EndOf(chunks)
    {
      if file.None? || !(lines > 0) {
        return;
      }
      var from := if start >= 0 then start else 0;
      chunks := SortedChunks(chunks + [ChunkMeta(file.value, lines, from)]);
      chunkCount := |chunks|;
      SortKeepsLength(old(chunks) + [ChunkMeta(file.value, lines, from)]);
      var last := chunks[chunkCount - 1];
      mergedLines := last.start + last.lines;
    }
  }

  function Sane(chunks: seq<ChunkMeta>): seq<ChunkMeta> {
    if chunks == [] then []
    else (if chunks[0].lines > 0 then [chunks[0]] else []) + Sane(chunks[1..])
  }

  lemma {:induction false} InsertLength(x: ChunkMeta, s: seq<ChunkMeta>)
    ensures |Insert(x, s, StartKey)| == |s| + 1
  {
    if s != [] && StartKey(s[0]) >= StartKey(x) {
      InsertLength(x, s[1..]);
    }
  }

  lemma {:induction false} SortKeepsLength(s: seq<ChunkMeta>)
    ensures |SortedChunks(s)| == |s|
  {
    if s != [] {
      SortKeepsLength(s[..|s| - 1]);
      InsertLength(s[|s| - 1], SortedChunks(s[..|s| - 1]));
    }
  }

  /** A well-formed manifest comes back from a load as it is. */
  lemma {:induction false} LoadIsIdentity(chunks: seq<ChunkMeta>, disk: Disk, data: seq<LogEntry>)
    requires Holds(chunks, disk, data)
    ensures SortedChunks(Sane(chunks)) == chunks
  {
    SaneKeepsAll(chunks);
    SortOfHeld(chunks, disk, data);
  }

  lemma {:induction false} SaneKeepsAll(chunks: seq<ChunkMeta>)
    requires forall i :: 0 <= i < |chunks| ==> chunks[i].lines > 0
    ensures Sane(chunks) == chunks
  {
    if chunks != [] {
      SaneKeepsAll(chunks[1..]);
    }
  }

  // ---------- the chunk writer ----------

  class OutDir {
    var files: Disk
    constructor (files: Disk)
      ensures this.files == files
    {
      this.files := files;
    }
  }

  /** Nothing that was on disk changed. */
  ghost predicate Extends(before: Disk, after: Disk) {
    forall n :: n in before ==> n in after && after[n] == before[n]
  }

  /** The text of the files named by some results, one after the other. */
  function Texts(results: seq<WriteResult>, disk: Disk): seq<LogEntry> {
    if results == [] then [] else Texts(results[..|results| - 1], disk) + FileOf(disk, results[|results| - 1].file)
  }

  /** Results that name files of the stated lengths. */
  ghost predicate Truthful(results: seq<WriteResult>, disk: Disk) {
    forall i :: 0 <= i < |results| ==> results[i].file in disk && results[i].lines == |disk[results[i].file]| > 0
  }

  lemma {:induction false} TextsKept(results: seq<WriteResult>, disk: Disk, later: Disk)
    requires Truthful(results, disk) && Extends(disk, later)
    ensures Texts(results, later) == Texts(results, disk)
  {
    if results != [] {
      TextsKept(results[..|results| - 1], disk, later);
    }
  }

  lemma NoTexts(disk: Disk)
    ensures Texts([], disk) == []
  {
  }

  lemma TextsSnoc(results: seq<WriteResult>, before: Disk, r: WriteResult, after: Disk)
    requires Truthful(results, before) && Extends(before, after) && r.file in after
    ensures Texts(results + [r], after) == Texts(results, before) + after[r.file]
  {
    TextsKept(results, before, after);
    assert (results + [r])[..|results|] == results;
  }

  /** The greatest part number on disk, or `least` if that is greater. */
  method MaxNumber(disk: Disk, least: nat) returns (m: nat)
    ensures m >= least && forall n :: n in disk ==> n <= m
    ensures m == least || m in disk
  {
    m := least;
    var rest := disk.Keys;
    while rest != {}
      invariant rest <= disk.Keys && m >= least && (m == least || m in disk)
      invariant forall n :: n in disk && n !in rest ==> n <= m
      decreases |rest|
    {
      var n :| n in rest;
      m := Max(m, n);
      rest := rest - {n};
    }
  }

  class ChunkWriter {
    const outDir: OutDir
    const chunkMaxLines: int
    var currentIndex: nat
    var currentBuffer: seq<LogEntry>
    var writtenThisChunk: nat
    var fsIndexInitialized: bool

    constructor (outDir: OutDir, chunkMaxLines: int, startIndex: nat)
      ensures Valid() && currentBuffer == [] && this.outDir == outDir && this.chunkMaxLines == chunkMaxLines
    {
      this.outDir, this.chunkMaxLines := outDir, chunkMaxLines;
      currentIndex, currentBuffer, writtenThisChunk, fsIndexInitialized := startIndex, [], 0, false;
    }

    ghost predicate NumbersBelow()
      reads this, outDir
    {
      fsIndexInitialized ==> forall n :: n in outDir.files ==> n <= currentIndex
    }

    ghost predicate Valid()
      reads this, outDir
    {
      writtenThisChunk == |currentBuffer| < Max(1, chunkMaxLines) && NumbersBelow()
    }

    /** Writes the buffer to a new part file, numbered above all others. */
    method FlushChunk() returns (r: WriteResult)
      requires currentBuffer != [] && NumbersBelow()
      modifies this, outDir
      ensures Valid() && currentBuffer == []
      ensures r.file !in old(outDir.files) && (forall n :: n in old(outDir.files) ==> n < r.file)
      ensures r.lines == |old(currentBuffer)|
      ensures outDir.files == old(outDir.files)[r.file := old(currentBuffer)]
    {
      if !fsIndexInitialized {
        currentIndex := MaxNumber(outDir.files, currentIndex);
        fsIndexInitialized := true;
      }
      var buf := currentBuffer;
      currentBuffer := [];
      writtenThisChunk := 0;
      outDir.files := outDir.files[currentIndex + 1 := buf];
      currentIndex := currentIndex + 1;
      r := WriteResult(currentIndex, |buf|);
    }

    /** Buffers one entry, and writes the buffer out when it makes a full chunk. */
    method PushEntry(e: LogEntry) returns (r: Option<WriteResult>)
      requires Valid()
      modifies this, outDir
      ensures Valid()
      ensures r.None? ==> outDir.files == old(outDir.files) && currentBuffer == old(currentBuffer) + [e]
      ensures r.Some? ==>
                && currentBuffer == []
                && r.value.file !in old(outDir.files) && (forall n :: n in old(outDir.files) ==> n < r.value.file)
                && r.value.lines == |old(currentBuffer)| + 1 == Max(1, chunkMaxLines)
                && outDir.files == old(outDir.files)[r.value.file := old(currentBuffer) + [e]]
    {
      currentBuffer := currentBuffer + [e];
      writtenThisChunk := writtenThisChunk + 1;
      if writtenThisChunk >= chunkMaxLines {
        var w := FlushChunk();
        return Some(w);
      }
      return None;
    }

    /** Appends entries. What the reported files and the buffer hold is what was buffered and appended, in
        order; the files are new and each holds a full chunk. */
    method AppendBatch(entries: seq<LogEntry>) returns (results: seq<WriteResult>)
      requires Valid()
      modifies this, outDir
      ensures Valid() && Extends(old(outDir.files), outDir.files)
      ensures Truthful(results, outDir.files)
      ensures Texts(results, outDir.files) + currentBuffer == old(currentBuffer) + entries
      ensures forall i :: 0 <= i < |results| ==>
                results[i].file !in old(outDir.files) && results[i].lines == Max(1, chunkMaxLines)
      ensures forall i, j :: 0 <= i < j < |results| ==> results[i].file < results[j].file
    {
      hide Texts;
      results := [];
      NoTexts(outDir.files);
      for n := 0 to |entries|
        invariant Valid() && Extends(old(outDir.files), outDir.files)
        invariant Truthful(results, outDir.files)
        invariant Texts(results, outDir.files) + currentBuffer == old(currentBuffer) + entries[..n]
        invariant forall i :: 0 <= i < |results| ==>
                    results[i].file !in old(outDir.files) && results[i].lines == Max(1, chunkMaxLines)
        invariant forall i, j :: 0 <= i < j < |results| ==> results[i].file < results[j].file
      {
        assert entries[..n + 1] == entries[..n] + [entries[n]];
        ghost var before, held := outDir.files, currentBuffer;
        var r := PushEntry(entries[n]);
        ghost var written := Texts(results, before);
        assert written + (held + [entries[n]]) == (written + held) + [entries[n]];
        assert old(currentBuffer) + entries[..n + 1] == (old(currentBuffer) + entries[..n]) + [entries[n]];
        if r.Some? {
          TextsSnoc(results, before, r.value, outDir.files);
          results := results + [r.value];
          assert Texts(results, outDir.files) + [] == Texts(results, outDir.files);
        }
      }
      assert entries[..|entries|] == entries;
    }

    /** Writes out what is left in the buffer, if anything. */
    method FlushRemainder() returns (result: Option<WriteResult>)
      requires Valid()
      modifies this, outDir
      ensures Valid() && currentBuffer == []
      ensures result.None? <==> old(currentBuffer) == []
      ensures result.None? ==> outDir.files == old(outDir.files)
      ensures result.Some? ==>
                && result.value.file !in old(outDir.files)
                && result.value.lines == |old(currentBuffer)|
                && outDir.files == old(outDir.files)[result.value.file := old(currentBuffer)]
    {
      if |currentBuffer| == 0 {
        return None;
      }
      var r := FlushChunk();
      result := Some(r);
    }
  }

  // ---------- appending and recording, each call awaited ----------

  /** Adds one written part to the manifest, at the end of what is held. */
  method RecordPart(mw: ManifestWriter, r: WriteResult, mergedSoFar: int, ghost disk: Disk, ghost data: seq<LogEntry>)
    requires Holds(mw.chunks, disk, data) && mergedSoFar == |data|
    requires r.file in disk && r.lines == |disk[r.file]| > 0
    modifies mw`chunks, mw`chunkCount, mw`mergedLines
    ensures Holds(mw.chunks, disk, data + disk[r.file])
    ensures mw.mergedLines == mergedSoFar + r.lines && mw.chunkCount == |mw.chunks|
  {
    HoldsOneMore(mw.chunks, disk, data, r.file);
    SortOfHeld(mw.chunks + [ChunkMeta(r.file, |disk[r.file]|, |data|)], disk, data + disk[r.file]);
    mw.AddChunk(Some(r.file), r.lines, mergedSoFar);
  }

  lemma TextsPrefix(results: seq<WriteResult>, disk: Disk, i: nat)
    requires i < |results| && Truthful(results, disk)
    ensures Texts(results[..i + 1], disk) == Texts(results[..i], disk) + disk[results[i].file]
  {
    assert results[..i + 1][..i] == results[..i];
  }

  /** The parts one call reported, recorded in turn. */
  method RecordParts(mw: ManifestWriter, results: seq<WriteResult>, start: int, ghost disk: Disk, ghost data: seq<LogEntry>)
    returns (mergedSoFar: int)
    requires Holds(mw.chunks, disk, data) && start == |data| == mw.mergedLines
    requires Truthful(results, disk)
    modifies mw`chunks, mw`chunkCount, mw`mergedLines
    ensures Holds(mw.chunks, disk, data + Texts(results, disk))
    ensures mergedSoFar == |data + Texts(results, disk)| == mw.mergedLines
  {
    hide Holds, Texts;
    NoTexts(disk);
    mergedSoFar := start;
    ghost var held := data;
    assert data + Texts(results[..0], disk) == data;
    for i := 0 to |results|
      invariant held == data + Texts(results[..i], disk)
      invariant Holds(mw.chunks, disk, held) && mergedSoFar == |held| == mw.mergedLines
    {
      RecordPart(mw, results[i], mergedSoFar, disk, held);
      TextsPrefix(results, disk, i);
      held := held + disk[results[i].file];
      mergedSoFar := mergedSoFar + results[i].lines;
    }
    assert results[..|results|] == results;
  }

  /** One batch of a merge session: append, then record what the append reported. */
  method StoreBatch(writer: ChunkWriter, mw: ManifestWriter, batch: seq<LogEntry>, start: int, ghost data: seq<LogEntry>)
    returns (mergedSoFar: int, ghost held: seq<LogEntry>)
    requires writer.Valid() && Holds(mw.chunks, writer.outDir.files, data) && start == |data| == mw.mergedLines
    modifies writer, writer.outDir, mw`chunks, mw`chunkCount, mw`mergedLines
    ensures writer.Valid() && Extends(old(writer.outDir.files), writer.outDir.files)
    ensures Holds(mw.chunks, writer.outDir.files, held) && mergedSoFar == |held| == mw.mergedLines
    ensures held + writer.currentBuffer == (data + old(writer.currentBuffer)) + batch
  {
    hide Holds, Texts, ChunkWriter.Valid;
    var parts := writer.AppendBatch(batch);
    HoldsOnGrowingDisk(mw.chunks, old(writer.outDir.files), writer.outDir.files, data);
    mergedSoFar := RecordParts(mw, parts, start, writer.outDir.files, data);
    held := data + Texts(parts, writer.outDir.files);
    Regroup(data, Texts(parts, writer.outDir.files), writer.currentBuffer, old(writer.currentBuffer), batch);
  }

  lemma HoldsNothing(disk: Disk)
    ensures Holds([], disk, [])
  {
  }

  lemma NoBatches()
    ensures Flatten<LogEntry>([]) == []
  {
  }

  /** A merge session's writing: every batch appended and recorded, then the remainder. Whatever the chunk
      size and the cut into batches, the manifest holds exactly what was appended, in order. */
  method StoreAll(batches: seq<seq<LogEntry>>, chunkMaxLines: int, files: Disk, startIndex: nat, totalLines: Option<int>)
    returns (manifest: Manifest, disk: Disk)
    ensures Holds(manifest.chunks, disk, Flatten(batches))
    ensures manifest.mergedLines == |Flatten(batches)| && manifest.totalLines == totalLines
    ensures Extends(files, disk)
  {
    hide Holds, ChunkWriter.Valid, Flatten;
    NoBatches();
    var outDir := new OutDir(files);
    var writer := new ChunkWriter(outDir, chunkMaxLines, startIndex);
    var mw := new ManifestWriter();
    mw.SetTotal(totalLines);
    var mergedSoFar := 0;
    ghost var data: seq<LogEntry> := [];
    HoldsNothing(files);
    for n := 0 to |batches|
      invariant fresh(outDir) && fresh(writer) && fresh(mw) && writer.outDir == outDir
      invariant writer.Valid() && Extends(files, outDir.files)
      invariant Holds(mw.chunks, outDir.files, data) && mergedSoFar == |data| == mw.mergedLines
      invariant data + writer.currentBuffer == Flatten(batches[..n]) && mw.totalLines == totalLines
    {
      mergedSoFar, data := StoreBatch(writer, mw, batches[n], mergedSoFar, data);
      assert batches[..n + 1] == batches[..n] + [batches[n]];
      FlattenSnoc(batches[..n], batches[n]);
    }
    assert batches[..|batches|] == batches;
    ghost var before := outDir.files;
    var remainder := writer.FlushRemainder();
    if remainder.Some? {
      HoldsOnGrowingDisk(mw.chunks, before, outDir.files, data);
      RecordPart(mw, remainder.value, mergedSoFar, outDir.files, data);
    } else {
      assert data + [] == data;
    }
    manifest := Manifest(mw.chunks, mw.mergedLines, mw.totalLines);
    disk := outDir.files;
  }

  lemma Regroup<T>(data: seq<T>, texts: seq<T>, left: seq<T>, buffered: seq<T>, batch: seq<T>)
    requires texts + left == buffered + batch
    ensures (data + texts) + left == (data + buffered) + batch
  {
    assert data + (texts + left) == data + (buffered + batch);
    assert (data + texts) + left == data + (texts + left);
    assert (data + buffered) + batch == data + (buffered + batch);
  }
}
