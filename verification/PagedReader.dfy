/** The paged reader: ranges of lines across the chunks of a manifest. */
module Paging {
  import opened Prelude
  import opened Entries
  import opened ChunkStore

  function Clamp(x: int, n: nat): (r: nat)
    ensures r <= n
  {
    Max(0, Min(x, n))
  }

  /** The positions of `s` that lie in `[a, b)`. */
  function Slice<T>(s: seq<T>, a: int, b: int): seq<T> {
    if b <= a then [] else s[Clamp(a, |s|)..Clamp(b, |s|)]
  }

  lemma Across<T>(s: seq<T>, more: seq<T>, i: nat, j: nat)
    requires i <= |s| <= j <= |s + more|
    ensures (s + more)[i..j] == s[i..] + more[..j - |s|]
  {
  }

  lemma Beyond<T>(s: seq<T>, more: seq<T>, i: nat, j: nat)
    requires i <= j <= |more|
    ensures (s + more)[|s| + i..|s| + j] == more[i..j]
  {
  }

  /** The part of `more` that lies in `[a, b)` when it stands at position `at`. */
  function PartOf<T>(more: seq<T>, at: int, a: int, b: int): seq<T>
    requires a < b
  {
    more[Clamp(a - at, |more|)..Clamp(b - at, |more|)]
  }

  lemma SliceBefore<T>(s: seq<T>, more: seq<T>, a: int, b: int)
    requires a < b <= |s|
    ensures Slice(s + more, a, b) == Slice(s, a, b) && PartOf(more, |s|, a, b) == []
  {
    var i, j := Clamp(a, |s|), Clamp(b, |s|);
    assert Clamp(a, |s + more|) == i && Clamp(b, |s + more|) == j;
    assert (s + more)[i..j] == s[i..j];
  }

  lemma SliceAfter<T>(s: seq<T>, more: seq<T>, a: int, b: int)
    requires |s| <= a < b
    ensures Slice(s + more, a, b) == PartOf(more, |s|, a, b) && Slice(s, a, b) == []
  {
    var i, j := Clamp(a - |s|, |more|), Clamp(b - |s|, |more|);
    assert Clamp(a, |s + more|) == |s| + i && Clamp(b, |s + more|) == |s| + j;
    assert Clamp(a, |s|) == Clamp(b, |s|) == |s|;
    Beyond(s, more, i, j);
  }

  lemma SliceAcross<T>(s: seq<T>, more: seq<T>, a: int, b: int)
    requires a < |s| < b
    ensures Slice(s + more, a, b) == Slice(s, a, b) + PartOf(more, |s|, a, b)
  {
    var i, j := Clamp(a, |s|), Clamp(b, |s + more|);
    assert Clamp(a, |s + more|) == i && Clamp(b, |s|) == |s| && Clamp(b - |s|, |more|) == j - |s|;
    assert Clamp(a - |s|, |more|) == 0;
    Across(s, more, i, j);
    assert s[i..|s|] == s[i..] && more[0..j - |s|] == more[..j - |s|];
  }

  lemma SliceAppend<T>(s: seq<T>, more: seq<T>, a: int, b: int)
    requires a < b
    ensures Slice(s + more, a, b) == Slice(s, a, b) + PartOf(more, |s|, a, b)
  {
    hide Slice, PartOf;
    if b <= |s| {
      SliceBefore(s, more, a, b);
    } else if |s| <= a {
      SliceAfter(s, more, a, b);
    } else {
      SliceAcross(s, more, a, b);
    }
  }

  /** The reader is fixed once opened. */
  datatype PagedReader = PagedReader(manifest: Manifest, disk: Disk)
  {
    ghost function Data(): seq<LogEntry> {
      Contents(manifest.chunks, disk)
    }

    /** The manifest describes the files on disk. */
    ghost predicate WellStored() {
      Holds(manifest.chunks, disk, Data()) && manifest.mergedLines == |Data()|
    }

    function GetTotalLines(): Option<int> {
      if manifest.mergedLines > 0 then Some(manifest.mergedLines) else manifest.totalLines
    }

    /** The lines `[startLine, endLineExcl)` of one part file; a missing file has none. */
    method ReadChunkSlice(file: nat, startLine: nat, endLineExcl: nat) returns (out: seq<LogEntry>)
      requires startLine <= endLineExcl
      ensures var lines := FileOf(disk, file); out == lines[Min(startLine, |lines|)..Min(endLineExcl, |lines|)]
    {
      out := [];
      if file !in disk {
        return;
      }
      var lines := disk[file];
      var idx := 0;
      while idx < |lines|
        invariant 0 <= idx <= |lines| && idx <= Max(endLineExcl, 0)
        invariant out == lines[Min(startLine, idx)..Min(endLineExcl, idx)]
      {
        if idx >= endLineExcl {
          break;
        }
        if idx >= startLine {
          out := out + [lines[idx]];
        }
        idx := idx + 1;
      }
    }

    /** The lines of one chunk that lie in the range. */
    method ReadChunk(c: ChunkMeta, start: int, endExcl: int) returns (picked: seq<LogEntry>)
      requires start < endExcl && c.lines == |FileOf(disk, c.file)|
      ensures picked == PartOf(FileOf(disk, c.file), c.start, start, endExcl)
    {
      var cEndExcl := c.start + c.lines;
      if cEndExcl <= start || c.start >= endExcl {
        return [];
      }
      var takeFrom := Max(0, start - c.start);
      var takeToExcl := Min(c.lines, endExcl - c.start);
      picked := ReadChunkSlice(c.file, takeFrom, takeToExcl);
    }

    /** Reads the overlapping chunks in turn, until there are as many lines as asked for. */
    method Gather(start: int, endExcl: int) returns (out: seq<LogEntry>)
      requires WellStored() && start < endExcl
      ensures out == Slice(Data(), start, endExcl)
    {
      assert Holds(manifest.chunks, disk, Contents(manifest.chunks, disk));
      assert Data() == Contents(manifest.chunks, disk);
      hide Slice, PartOf, Contents, Holds, PagedReader.Data;
      out := [];
      NoSlice<LogEntry>(start, endExcl);
      NoContents(disk);
      for n := 0 to |manifest.chunks|
        invariant out == Slice(Contents(manifest.chunks[..n], disk), start, endExcl)
      {
        var c := manifest.chunks[n];
        ChunksStand(manifest.chunks, disk, n);
        SliceAppend(Contents(manifest.chunks[..n], disk), FileOf(disk, c.file), start, endExcl);
        NextContents(manifest.chunks, disk, n);
        var picked := ReadChunk(c, start, endExcl);
        out := out + picked;
        if |out| >= endExcl - start {
          RestIsBeyond(manifest.chunks, disk, n + 1, start, endExcl);
          return;
        }
      }
      assert manifest.chunks[..|manifest.chunks|] == manifest.chunks;
    }

    /** The lines of the whole in `[start, endExcl)`. */
    method ReadLineRange(start: int, endExcl: int) returns (out: seq<LogEntry>)
      requires WellStored()
      ensures out == Slice(Data(), start, endExcl)
    {
      if endExcl <= start {
        return [];
      }
      hide Contents, Holds;
      out := Gather(start, endExcl);
      NoLonger(Data(), start, endExcl);
      out := out[..Min(endExcl - start, |out|)];
    }

    /** A page is the slice of the whole that its number and size name. */
    method ReadPage(pageIndex: int, pageSize: int) returns (out: seq<LogEntry>)
      requires WellStored()
      ensures out == Slice(Data(), pageIndex * Max(1, pageSize), (pageIndex + 1) * Max(1, pageSize))
    {
      var size := Max(1, pageSize);
      var start := pageIndex * size;
      out := ReadLineRange(start, start + size);
      assert (pageIndex + 1) * size == start + size;
    }

    function GetPageCount(pageSize: int): int {
      var total := if GetTotalLines().Some? then GetTotalLines().value else 0;
      if total <= 0 then 0 else CeilDiv(total, Max(1, pageSize))
    }
  }

  /** A chunk is as long as its file and starts where the chunks before it end. */
  ghost predicate ChunkStands(chunks: seq<ChunkMeta>, disk: Disk, n: int)
    requires 0 <= n < |chunks|
  {
    chunks[n].lines == |FileOf(disk, chunks[n].file)| && chunks[n].start == |Contents(chunks[..n], disk)|
  }

  lemma ChunksStand(chunks: seq<ChunkMeta>, disk: Disk, n: int)
    requires Holds(chunks, disk, Contents(chunks, disk)) && 0 <= n < |chunks|
    ensures ChunkStands(chunks, disk, n)
  {
    hide Contents;
  }

  lemma NoContents(disk: Disk)
    ensures Contents([], disk) == []
  {
  }

  lemma NextContents(chunks: seq<ChunkMeta>, disk: Disk, n: int)
    requires 0 <= n < |chunks|
    ensures Contents(chunks[..n + 1], disk) == Contents(chunks[..n], disk) + FileOf(disk, chunks[n].file)
  {
    assert chunks[..n + 1][..n] == chunks[..n];
  }

  lemma NoSlice<T>(a: int, b: int)
    ensures Slice<T>([], a, b) == []
  {
  }

  lemma NoLonger<T>(s: seq<T>, a: int, b: int)
    requires a < b
    ensures |Slice(s, a, b)| <= b - a
  {
  }

  function CeilDiv(a: int, b: int): int
    requires b > 0
  {
    (a + b - 1) / b
  }

  lemma {:induction false} ContentsPrefix(chunks: seq<ChunkMeta>, disk: Disk, i: int)
    requires 0 <= i <= |chunks|
    ensures Contents(chunks[..i], disk) <= Contents(chunks, disk)
    decreases |chunks| - i
  {
    if i < |chunks| {
      ContentsPrefix(chunks, disk, i + 1);
      assert chunks[..i + 1][..i] == chunks[..i];
    } else {
      assert chunks[..i] == chunks;
    }
  }

  lemma FullSlice<T>(s: seq<T>, t: seq<T>, a: int, b: int)
    requires s <= t && a < b && |Slice(s, a, b)| >= b - a
    ensures Slice(t, a, b) == Slice(s, a, b)
  {
    assert 0 <= a && b <= |s|;
    assert t[a..b] == s[a..b];
  }

  /** Once as many lines as asked for are found, later chunks add none. */
  lemma RestIsBeyond(chunks: seq<ChunkMeta>, disk: Disk, n: int, start: int, endExcl: int)
    requires 0 <= n <= |chunks| && start < endExcl
    requires |Slice(Contents(chunks[..n], disk), start, endExcl)| >= endExcl - start
    ensures Slice(Contents(chunks, disk), start, endExcl) == Slice(Contents(chunks[..n], disk), start, endExcl)
  {
    hide Contents, Slice;
    ContentsPrefix(chunks, disk, n);
    FullSlice(Contents(chunks[..n], disk), Contents(chunks, disk), start, endExcl);
  }

  // ---------- opening ----------

  /** Opening sorts the chunks and takes the merged count from the last of them. */
  function Opened(stored: Manifest): Manifest {
    var chunks := SortedChunks(stored.chunks);
    stored.(chunks := chunks, mergedLines := if chunks != [] then EndOf(chunks) else stored.mergedLines)
  }

  /** A stored manifest that holds data opens to a reader of that data, whatever merged count it states,
      unless it has no chunk at all. */
  lemma OpenServesWhatIsHeld(stored: Manifest, disk: Disk, data: seq<LogEntry>)
    requires Holds(stored.chunks, disk, data)
    requires stored.chunks == [] ==> stored.mergedLines == 0
    ensures var r := PagedReader(Opened(stored), disk); r.WellStored() && r.Data() == data
  {
    SortOfHeld(stored.chunks, disk, data);
    HoldsFalls(stored.chunks, disk, data);
  }

  // ---------- pages ----------

  ghost function Pages<T>(s: seq<T>, size: nat, count: nat): seq<seq<T>>
  {
    seq(count, i requires 0 <= i < count => Slice(s, i * size, (i + 1) * size))
  }

  lemma {:induction false} PagesTake<T>(s: seq<T>, size: nat, count: nat)
    requires size >= 1
    ensures Flatten(Pages(s, size, count)) == s[..Clamp(count * size, |s|)]
  {
    if count > 0 {
      PagesTake(s, size, count - 1);
      var last := Slice(s, (count - 1) * size, count * size);
      assert Pages(s, size, count) == Pages(s, size, count - 1) + [last];
      FlattenSnoc(Pages(s, size, count - 1), last);
      assert (count - 1) * size + size == count * size;
    }
  }

  lemma CeilCovers(n: nat, size: nat)
    requires size >= 1
    ensures CeilDiv(n, size) * size >= n
    ensures n > 0 ==> (CeilDiv(n, size) - 1) * size < n
  {
  }

  /** The pages, as many as the page count says, make up the whole; if there is anything, there is a page and the
      last one is not empty. */
  lemma PagesMakeTheWhole(r: PagedReader, pageSize: int)
    requires r.WellStored()
    ensures Flatten(Pages(r.Data(), Max(1, pageSize), Max(0, r.GetPageCount(pageSize)))) == r.Data()
    ensures r.Data() != [] ==> r.GetPageCount(pageSize) >= 1 && (r.GetPageCount(pageSize) - 1) * Max(1, pageSize) < |r.Data()|
  {
    hide PagedReader.Data;
    var size, n, count := Max(1, pageSize), |r.Data()|, r.GetPageCount(pageSize);
    PagesTake(r.Data(), size, Max(0, count));
    if n > 0 {
      CeilCovers(n, size);
      assert count == CeilDiv(n, size);
      AtLeastOne(count, size);
    }
  }

  lemma AtLeastOne(count: int, size: nat)
    requires count * size >= 1
    ensures count >= 1
  {
  }
}
