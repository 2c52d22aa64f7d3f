/** Reading one log type from its newest line back, across its rotated files, on demand. */
module TailWalking {
  import opened Prelude
  import opened LineReading
  import opened Entries
  import opened Directory
  import opened TypePass

  /** A raw line with the file it was read from. */
  datatype TailLine = TailLine(line: string, file: LogFile)

  function Tagged(f: LogFile, lines: seq<string>): (r: seq<TailLine>)
    ensures |r| == |lines|
    ensures forall i :: 0 <= i < |r| ==> r[i] == TailLine(lines[i], f)
  {
    seq(|lines|, i requires 0 <= i < |lines| => TailLine(lines[i], f))
  }

  /** All lines of the files, last line of the first file first. */
  function TailOf(files: seq<LogFile>): seq<TailLine> {
    if files == [] then [] else Tagged(files[0], Reverse(FileLines(files[0].content))) + TailOf(files[1..])
  }

  class TypeTailWalker {
    const files: seq<LogFile>
    const chunkSize: nat
    var idx: nat
    var rr: ReverseLineReader?
    var exhausted: bool

    constructor (files: seq<LogFile>, chunkSize: nat)
      requires chunkSize >= 1
      ensures Valid() && rr == null && !exhausted && this.files == files
      ensures Remaining() == TailOf(files)
    {
      this.files, this.chunkSize := files, chunkSize;
      idx, rr, exhausted := 0, null, false;
      new;
      assert files[0..] == files;
    }

    ghost predicate Valid()
      reads this, rr
    {
      && chunkSize >= 1
      && idx <= |files|
      && (rr != null ==> idx < |files| && rr.Valid())
      && (exhausted ==> rr == null && idx == |files|)
    }

    /** The lines not yet handed out. */
    ghost function Remaining(): seq<TailLine>
      requires Valid()
      reads this, rr
    {
      if rr == null then TailOf(files[idx..])
      else Tagged(files[idx], Reverse(rr.Pending())) + TailOf(files[idx + 1..])
    }

    /** Opens the next file, or notices that there is none. */
    method EnsureReader()
      requires Valid() && !exhausted
      modifies this
      ensures Valid() && Remaining() == old(Remaining())
      ensures rr == old(rr) || (old(rr) == null && fresh(rr))
      ensures idx == old(idx) && (exhausted <==> rr == null)
    {
      if rr == null && idx < |files| {
        rr := new ReverseLineReader(files[idx].content, chunkSize);
        assert files[idx..][1..] == files[idx + 1..];
      }
      if rr == null && idx >= |files| {
        exhausted := true;
      }
    }

    /** Leaves a file that has no more lines. */
    method NextFile()
      requires Valid() && rr != null && rr.Pending() == []
      modifies this
      ensures Valid() && Remaining() == old(Remaining())
      ensures rr == null || fresh(rr)
      ensures idx == old(idx) + 1 && (exhausted <==> rr == null)
    {
      hide TailOf, Tagged, ReverseLineReader.Pending;
      NoneTagged(files[idx], TailOf(files[idx + 1..]));
      rr := null;
      idx := idx + 1;
      EnsureReader();
    }

    /** One turn of the reading loop: a line of the open file, or the move to the next file. */
    method Advance() returns (x: Option<TailLine>)
      requires Valid() && rr != null
      modifies this, rr
      ensures Valid() && (rr == null || rr == old(rr) || fresh(rr))
      ensures exhausted <==> rr == null
      ensures x.Some? ==> old(Remaining()) == [x.value] + Remaining() && idx == old(idx) && !exhausted
      ensures x.None? ==> old(Remaining()) == Remaining() && idx > old(idx)
    {
      hide TailOf, Tagged, Reverse, ReverseLineReader.Pending;
      ghost var f, rest := files[idx], TailOf(files[idx + 1..]);
      assert Remaining() == Tagged(f, Reverse(rr.Pending())) + rest;
      var line := rr.NextLine();
      assert Remaining() == Tagged(f, Reverse(rr.Pending())) + rest;
      if line.None? {
        NextFile();
        return None;
      }
      HandOut(f, rr.Pending(), line.value, rest);
      return Some(TailLine(line.value, files[idx]));
    }

    lemma ExhaustedHasNone()
      requires Valid() && exhausted
      ensures Remaining() == []
    {
    }

    /** Hands out up to `n` lines. Running out is noticed only by a read that comes up short. */
    method Next(n: nat) returns (out: seq<TailLine>)
      requires Valid()
      modifies this, rr
      ensures Valid()
      ensures rr == null || rr == old(rr) || fresh(rr)
      ensures |out| <= n && old(Remaining()) == out + Remaining()
      ensures |out| < n ==> exhausted
      ensures exhausted && n > 0 && !old(exhausted) ==> |out| < n
      ensures exhausted ==> Remaining() == []
    {
      hide Remaining;
      out := [];
      if exhausted {
        ExhaustedHasNone();
        return;
      }
      EnsureReader();
      while |out| < n && !exhausted
        invariant Valid() && (rr == null || rr == old(rr) || fresh(rr))
        invariant |out| <= n && old(Remaining()) == out + Remaining()
        invariant exhausted <==> rr == null
        invariant exhausted && n > 0 ==> |out| < n
        decreases |files| - idx, |Remaining()|
      {
        var x := Advance();
        if x.Some? {
          assert out + ([x.value] + Remaining()) == (out + [x.value]) + Remaining();
          out := out + [x.value];
        }
      }
      if exhausted {
        ExhaustedHasNone();
      }
    }
  }

  lemma HandOut(f: LogFile, pending: seq<string>, line: string, rest: seq<TailLine>)
    ensures Tagged(f, Reverse(pending + [line])) + rest == [TailLine(line, f)] + (Tagged(f, Reverse(pending)) + rest)
  {
  }

  lemma NoneTagged(f: LogFile, rest: seq<TailLine>)
    ensures Tagged(f, Reverse([])) + rest == rest
  {
  }

  // ---------- valid lines ----------

  /** The valid lines among lines of a tail. */
  function ValidTail(p: Parsing, lines: seq<TailLine>): seq<Source> {
    if lines == [] then [] else
      var x := lines[0];
      (if Dropped(p, x.file, x.line) then [] else [Source(x.file.name, p.text(x.file, x.line))]) + ValidTail(p, lines[1..])
  }

  lemma {:induction false} ValidTailAppend(p: Parsing, a: seq<TailLine>, b: seq<TailLine>)
    ensures ValidTail(p, a + b) == ValidTail(p, a) + ValidTail(p, b)
  {
    if a == [] {
      assert a + b == b;
    } else {
      assert (a + b)[1..] == a[1..] + b;
      ValidTailAppend(p, a[1..], b);
    }
  }

  lemma {:induction false} ValidTailOfTagged(p: Parsing, f: LogFile, lines: seq<string>)
    ensures ValidTail(p, Tagged(f, lines)) == Kept(p, f, lines)
  {
    if lines != [] {
      assert Tagged(f, lines)[1..] == Tagged(f, lines[1..]);
      ValidTailOfTagged(p, f, lines[1..]);
    }
  }

  lemma {:induction false} ValidTailOfFiles(p: Parsing, files: seq<LogFile>)
    ensures ValidTail(p, TailOf(files)) == ValidLinesOf(p, files)
  {
    hide FileLines;
    if files != [] {
      var first := Reverse(FileLines(files[0].content));
      ValidTailOfFiles(p, files[1..]);
      ValidTailOfTagged(p, files[0], first);
      ValidTailAppend(p, Tagged(files[0], first), TailOf(files[1..]));
    }
  }

  const CHUNK := 64

  /** Turns lines into entries; the fallback time is carried over files, and any time value renews it. */
  method ToEntries(p: Parsing, part: seq<TailLine>, start: Option<int>) returns (logs: seq<LogEntry>, prevTs: Option<int>)
    ensures SourcesOf(logs) == ValidTail(p, part)
  {
    logs, prevTs := [], start;
    for i := 0 to |part|
      invariant SourcesOf(logs) == ValidTail(p, part[..i])
    {
      var x := part[i];
      assert part[..i + 1] == part[..i] + [x];
      ValidTailAppend(p, part[..i], [x]);
      assert [x][1..] == [];
      var ts := p.restoredTs(x.file, x.line, p.ts(x.file, x.line, prevTs));
      if Dropped(p, x.file, x.line) {
        continue;
      }
      prevTs := Some(ts);
      var entry := LogEntry(ts, x.file.name, p.text(x.file, x.line), None, None);
      SourcesSnoc(logs, entry);
      logs := logs + [entry];
    }
    assert part[..|part|] == part;
  }

  /** Reads until `need` valid lines are found or the type runs out. */
  method BatchRead(p: Parsing, w: TypeTailWalker, buffer: seq<LogEntry>, start: Option<int>, need: nat)
    returns (longer: seq<LogEntry>, prevTs: Option<int>, got: nat)
    requires w.Valid()
    modifies w, w.rr
    ensures w.Valid() && (w.rr == null || w.rr == old(w.rr) || fresh(w.rr))
    ensures |longer| == |buffer| + got && got <= need
    ensures SourcesOf(longer) + ValidTail(p, w.Remaining()) == SourcesOf(buffer) + ValidTail(p, old(w.Remaining()))
    ensures got < need ==> w.exhausted
    ensures if old(w.exhausted) then w.exhausted && got == 0 else w.exhausted ==> got < need
  {
    hide ValidTail, SourcesOf, TypeTailWalker.Remaining, TypeTailWalker.Valid;
    longer, prevTs, got := buffer, start, 0;
    while got < need && !w.exhausted
      invariant w.Valid() && (w.rr == null || w.rr == old(w.rr) || fresh(w.rr))
      invariant |longer| == |buffer| + got && got <= need
      invariant SourcesOf(longer) + ValidTail(p, w.Remaining()) == SourcesOf(buffer) + ValidTail(p, old(w.Remaining()))
      invariant if old(w.exhausted) then w.exhausted && got == 0 else w.exhausted ==> got < need
      decreases !w.exhausted, |w.Remaining()|
    {
      var n := Min(CHUNK, need - got);
      var part := w.Next(n);
      if |part| == 0 {
        assert [] + w.Remaining() == w.Remaining();
        break;
      }
      ValidTailAppend(p, part, w.Remaining());
      var more;
      more, prevTs := ToEntries(p, part, prevTs);
      AtMost(p, part);
      SourcesAppend(longer, more);
      longer := longer + more;
      got := got + |more|;
    }
  }

  lemma {:induction false} AtMost(p: Parsing, part: seq<TailLine>)
    ensures |ValidTail(p, part)| <= |part|
  {
    if part != [] {
      AtMost(p, part[1..]);
    }
  }

  lemma SourcesAppend(a: seq<LogEntry>, b: seq<LogEntry>)
    ensures SourcesOf(a + b) == SourcesOf(a) + SourcesOf(b)
  {
  }
}
