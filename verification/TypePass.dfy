/** The input directory: rotated log files, grouped by type, and the lines they hold. */
module Directory {
  import opened Prelude
  import opened LineReading
  import opened Sorting

  /** `rotation` is the number at the end of the name, -1 if there is none; `useParser` is the outcome of
      the parser's preflight on the file. */
  datatype LogFile = LogFile(name: string, typeKey: string, rotation: int, content: string, useParser: bool)

  /** What the line parser makes of a line of a file: whether its header lacks time, process and pid alike,
      the text kept for it, its time value given a fallback, that value once the header is restored, and
      whether a text starts with a time that has no year. */
  datatype Parsing = Parsing(
    headerMissing: (LogFile, string) -> bool,
    text: (LogFile, string) -> string,
    ts: (LogFile, string, Option<int>) -> int,
    restoredTs: (LogFile, string, int) -> int,
    yearless: string -> bool)

  /** A line as the reader of the result knows it: the file it is from and its text. */
  datatype Source = Source(file: string, text: string)

  predicate Dropped(p: Parsing, f: LogFile, line: string) {
    f.useParser && p.headerMissing(f, line)
  }

  /** The kept lines among `lines`. */
  function Kept(p: Parsing, f: LogFile, lines: seq<string>): seq<Source> {
    if lines == [] then []
    else (if Dropped(p, f, lines[0]) then [] else [Source(f.name, p.text(f, lines[0]))]) + Kept(p, f, lines[1..])
  }

  /** The valid lines of a file, last line first. */
  function ValidLines(p: Parsing, f: LogFile): seq<Source> {
    Kept(p, f, Reverse(FileLines(f.content)))
  }

  /** The valid lines of a list of files. */
  function ValidLinesOf(p: Parsing, files: seq<LogFile>): seq<Source> {
    if files == [] then [] else ValidLines(p, files[0]) + ValidLinesOf(p, files[1..])
  }

  lemma {:induction false} ValidLinesAppend(p: Parsing, a: seq<LogFile>, b: seq<LogFile>)
    ensures ValidLinesOf(p, a + b) == ValidLinesOf(p, a) + ValidLinesOf(p, b)
  {
    hide ValidLines;
    if a == [] {
      assert a + b == b;
    } else {
      assert (a + b)[1..] == a[1..] + b;
      ValidLinesAppend(p, a[1..], b);
    }
  }

  lemma {:induction false} KeptIsNoLonger(p: Parsing, f: LogFile, lines: seq<string>)
    ensures |Kept(p, f, lines)| <= |lines|
  {
    if lines != [] {
      KeptIsNoLonger(p, f, lines[1..]);
    }
  }

  // ---------- types ----------

  function FilesOf(dir: seq<LogFile>, k: string): seq<LogFile> {
    if dir == [] then [] else (if dir[0].typeKey == k then [dir[0]] else []) + FilesOf(dir[1..], k)
  }

  /** The files of one type, newest first: no rotation number, then .1, .2 and so on. */
  function OrderedFiles(dir: seq<LogFile>, k: string): seq<LogFile> {
    StableSort(FilesOf(dir, k), (f: LogFile) => -f.rotation)
  }

  /** The types, in the order in which the directory first shows them. */
  function TypeKeys(dir: seq<LogFile>): (r: seq<string>)
    ensures forall k :: k in r <==> exists i :: 0 <= i < |dir| && dir[i].typeKey == k
    ensures forall i, j :: 0 <= i < j < |r| ==> r[i] != r[j]
  {
    if dir == [] then [] else
      var front := TypeKeys(dir[..|dir| - 1]);
      var k := dir[|dir| - 1].typeKey;
      if k in front then front else front + [k]
  }

  /** What a type holds: its valid lines, newest file and last line first. */
  function LinesOfType(p: Parsing, dir: seq<LogFile>, k: string): seq<Source> {
    ValidLinesOf(p, OrderedFiles(dir, k))
  }
}

/** The per-type pass of the disk merge: load a type newest line first, stitch, correct, sort. */
module TypePass {
  import opened Prelude
  import opened LineReading
  import opened Sorting
  import opened Entries
  import opened Directory
  import opened Merging
  import FullMerge
  import Stitching
  import MonotonicCorrection

  function SourcesOf(entries: seq<LogEntry>): (r: seq<Source>)
    ensures |r| == |entries|
    ensures forall i :: 0 <= i < |r| ==> r[i] == Source(entries[i].file, entries[i].text)
  {
    seq(|entries|, i requires 0 <= i < |entries| => Source(entries[i].file, entries[i].text))
  }

  function TimesOf(entries: seq<LogEntry>): (r: seq<int>)
    ensures |r| == |entries|
    ensures forall i :: 0 <= i < |r| ==> r[i] == entries[i].ts
  {
    seq(|entries|, i requires 0 <= i < |entries| => entries[i].ts)
  }

  /** Physical order within a type: by file, and in a file by line from the end. */
  predicate Earlier(a: LogEntry, b: LogEntry) {
    && a.fRank.Some? && b.fRank.Some? && a.rev.Some? && b.rev.Some?
    && (a.fRank.value < b.fRank.value ||
        (a.fRank.value == b.fRank.value && a.file == b.file && a.rev.value < b.rev.value))
  }

  ghost predicate Placed(entries: seq<LogEntry>) {
    forall i, j :: 0 <= i < j < |entries| ==> Earlier(entries[i], entries[j])
  }

  /** The line read last comes first among the kept. */
  lemma KeptStep(p: Parsing, f: LogFile, pending: seq<string>, line: string)
    ensures Kept(p, f, Reverse(pending + [line]))
            == (if Dropped(p, f, line) then [] else [Source(f.name, p.text(f, line))]) + Kept(p, f, Reverse(pending))
  {
    var all := Reverse(pending + [line]);
    assert all[0] == line && all[1..] == Reverse(pending);
  }

  lemma KeptNone(p: Parsing, f: LogFile)
    ensures Kept(p, f, Reverse([])) == []
  {
  }

  lemma SourcesSnoc(logs: seq<LogEntry>, e: LogEntry)
    ensures SourcesOf(logs + [e]) == SourcesOf(logs) + [Source(e.file, e.text)]
  {
  }

  lemma PlacedNone()
    ensures Placed([])
  {
  }

  lemma PlacedSnoc(logs: seq<LogEntry>, e: LogEntry)
    requires Placed(logs) && forall i :: 0 <= i < |logs| ==> Earlier(logs[i], e)
    ensures Placed(logs + [e])
  {
  }

  method LoadFile(p: Parsing, f: LogFile, rank: nat, chunkSize: nat) returns (logs: seq<LogEntry>)
    requires chunkSize >= 1
    ensures SourcesOf(logs) == ValidLines(p, f)
    ensures Placed(logs)
    ensures forall i :: 0 <= i < |logs| ==> logs[i].fRank == Some(rank) && logs[i].rev.Some?
  {
    hide FileLines, TextLines, StripBom, Kept, SourcesOf, Placed;
    var reader := new ReverseLineReader(f.content, chunkSize);
    logs := [];
    assert Placed(logs) by { PlacedNone(); }
    var revIdx := 0;
    var prevTs: Option<int> := None;
    while true
      invariant fresh(reader) && reader.Valid()
      invariant ValidLines(p, f) == SourcesOf(logs) + Kept(p, f, Reverse(reader.Pending()))
      invariant Placed(logs)
      invariant forall i :: 0 <= i < |logs| ==>
                  logs[i].fRank == Some(rank) && logs[i].file == f.name && logs[i].rev.Some? && logs[i].rev.value < revIdx
      decreases |reader.Pending()|
    {
      var line := reader.NextLine();
      if line.None? {
        KeptNone(p, f);
        return;
      }
      KeptStep(p, f, reader.Pending(), line.value);
      var ts := p.ts(f, line.value, prevTs);
      var rev := revIdx;
      revIdx := revIdx + 1;
      if Dropped(p, f, line.value) {
        continue;
      }
      if ts > 0 {
        prevTs := Some(ts);
      }
      var entry := LogEntry(p.restoredTs(f, line.value, ts), f.name, p.text(f, line.value), Some(rank), Some(rev));
      SourcesSnoc(logs, entry);
      PlacedSnoc(logs, entry);
      logs := logs + [entry];
    }
  }

  method LoadType(p: Parsing, files: seq<LogFile>, chunkSize: nat) returns (logs: seq<LogEntry>)
    requires chunkSize >= 1
    ensures SourcesOf(logs) == ValidLinesOf(p, files)
    ensures Placed(logs)
  {
    hide ValidLines;
    logs := [];
    for i := 0 to |files|
      invariant SourcesOf(logs) == ValidLinesOf(p, files[..i])
      invariant Placed(logs)
      invariant forall n :: 0 <= n < |logs| ==> logs[n].fRank.Some? && logs[n].rev.Some? && logs[n].fRank.value < i
    {
      var more := LoadFile(p, files[i], i, chunkSize);
      ValidLinesAppend(p, files[..i], [files[i]]);
      assert [files[i]][1..] == [];
      assert files[..i + 1] == files[..i] + [files[i]];
      assert ValidLinesOf(p, [files[i]]) == ValidLines(p, files[i]);
      assert SourcesOf(logs + more) == SourcesOf(logs) + SourcesOf(more);
      PlacedAppend(logs, more);
      logs := logs + more;
    }
    assert files[..|files|] == files;
  }

  lemma PlacedAppend(a: seq<LogEntry>, b: seq<LogEntry>)
    requires Placed(a) && Placed(b)
    requires forall i, j :: 0 <= i < |a| && 0 <= j < |b| ==> Earlier(a[i], b[j])
    ensures Placed(a + b)
  {
  }

  /** The entries with new time values. */
  function WithTimes(entries: seq<LogEntry>, times: seq<int>): (r: seq<LogEntry>)
    requires |entries| == |times|
    ensures |r| == |entries|
    ensures forall i :: 0 <= i < |r| ==> r[i] == entries[i].(ts := times[i])
  {
    seq(|entries|, i requires 0 <= i < |entries| => entries[i].(ts := times[i]))
  }

  function StampsOf(p: Parsing, entries: seq<LogEntry>): (r: seq<Stitching.Stamp>)
    ensures |r| == |entries|
  {
    seq(|entries|, i requires 0 <= i < |entries| => Stitching.Stamp(entries[i].ts, p.yearless(entries[i].text)))
  }

  /** `out` is `logs` with the time values that stitching and then correcting give. */
  ghost predicate IsTimed(p: Parsing, logs: seq<LogEntry>, out: seq<LogEntry>) {
    exists stitched ::
      && Stitching.IsStitched(StampsOf(p, logs), stitched)
      && |stitched| == |logs|
      && out == WithTimes(logs, MonotonicCorrection.Outputs(stitched, 1))
  }

  function TimeKey(e: LogEntry): int { e.ts }

  /** Stitch, correct and stable-sort a loaded type. For any time values the sort changes nothing: the lines
      keep their physical order and only time values change. */
  method TimeAndSort(p: Parsing, logs: seq<LogEntry>) returns (out: seq<LogEntry>)
    ensures IsTimed(p, logs, out)
    ensures SourcesOf(out) == SourcesOf(logs)
    ensures NonIncreasing(TimesOf(out))
    ensures Placed(logs) ==> Placed(out)
  {
    hide Stitching.IsStitched;
    var stamps := StampsOf(p, logs);
    var stitched := Stitching.StitchAll(stamps);
    StitchedLength(stamps, stitched);
    var corrected := MonotonicCorrection.CorrectAll(stitched, 1);
    MonotonicCorrection.OutputsNeverRise(stitched, 1);
    var timed := WithTimes(logs, corrected);
    StableSortIsStable(timed, TimeKey);
    SortOfFalling(timed, StableSort(timed, TimeKey), TimeKey);
    out := StableSort(timed, TimeKey);
  }

  lemma StitchedLength(stamps: seq<Stitching.Stamp>, out: seq<int>)
    requires Stitching.IsStitched(stamps, out)
    ensures |out| == |stamps|
  {
  }

  /** A falling list in physical order is sorted for the merge. */
  lemma PlacedIsSorted(lc: (string, string) -> int, k: string, list: seq<LogEntry>)
    requires Placed(list) && NonIncreasing(TimesOf(list))
    ensures Sorted(FullMerge.MergeCmp(lc), Numbered(k, list))
  {
  }

  /** The pass over one type: what the disk merge stores for it. */
  method SortType(p: Parsing, files: seq<LogFile>, chunkSize: nat) returns (list: seq<LogEntry>)
    requires chunkSize >= 1
    ensures SourcesOf(list) == ValidLinesOf(p, files)
    ensures NonIncreasing(TimesOf(list)) && Placed(list)
  {
    var logs := LoadType(p, files, chunkSize);
    list := TimeAndSort(p, logs);
  }
}
