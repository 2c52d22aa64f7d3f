/** Reading a log file: the chunked reader that yields lines from the end of a file to its start, and the
    line count that the skip decision is based on. A file is a sequence of characters. */
module LineReading {
  import opened Prelude

  const LF := '\n'
  const CR := '\r'
  const BOM := '\U{FEFF}'

  // ---------- what the lines of a text are ----------

  function StripBom(s: string): string {
    if s != [] && s[0] == BOM then s[1..] else s
  }

  lemma EmptyHasNoBom(s: string)
    requires s == []
    ensures StripBom(s) == []
  {
  }

  function ChompCr(s: string): string {
    if s != [] && s[|s| - 1] == CR then s[..|s| - 1] else s
  }

  /** The LF-separated segments of a text, read from its start; there is always at least one. */
  function Segments(s: string): (r: seq<string>)
    ensures r != []
    ensures forall i :: 0 <= i < |r| ==> LF !in r[i]
  {
    if s == [] then [[]]
    else if s[0] == LF then [[]] + Segments(s[1..])
    else
      var rest := Segments(s[1..]);
      [[s[0]] + rest[0]] + rest[1..]
  }

  /** The non-empty segments, each without one trailing CR. */
  function Keep(segments: seq<string>): seq<string> {
    if segments == [] then []
    else (if segments[0] == [] then [] else [ChompCr(segments[0])]) + Keep(segments[1..])
  }

  function TextLines(text: string): seq<string> {
    Keep(Segments(text))
  }

  /** The lines of a file, first line first. */
  function FileLines(content: string): seq<string> {
    TextLines(StripBom(content))
  }

  lemma {:induction false} KeepAppend(a: seq<string>, b: seq<string>)
    ensures Keep(a + b) == Keep(a) + Keep(b)
  {
    if a == [] {
      assert a + b == b;
    } else {
      assert (a + b)[1..] == a[1..] + b;
      KeepAppend(a[1..], b);
    }
  }

  lemma {:induction false} SegmentsOfOne(s: string)
    requires LF !in s
    ensures Segments(s) == [s]
  {
    if s != [] {
      SegmentsOfOne(s[1..]);
      assert s == [s[0]] + s[1..];
    }
  }

  /** Cutting at an LF splits the segments. */
  lemma {:induction false} SegmentsSplit(a: string, b: string)
    ensures Segments(a + [LF] + b) == Segments(a) + Segments(b)
  {
    var s := a + [LF] + b;
    if a == [] {
      assert s[1..] == b;
    } else {
      assert s[0] == a[0] && s[1..] == a[1..] + [LF] + b;
      SegmentsSplit(a[1..], b);
    }
  }

  /** The last line of a text, found at its last LF. */
  lemma LastLine(a: string, b: string)
    requires LF !in b
    ensures TextLines(a + [LF] + b) == TextLines(a) + if b == [] then [] else [ChompCr(b)]
  {
    SegmentsSplit(a, b);
    SegmentsOfOne(b);
    KeepAppend(Segments(a), [b]);
    assert [b][1..] == [];
  }

  lemma OnlyLine(s: string)
    requires LF !in s
    ensures TextLines(s) == if s == [] then [] else [ChompCr(s)]
  {
    SegmentsOfOne(s);
    assert [s][1..] == [];
    assert Keep([s]) == if s == [] then [] else [ChompCr(s)];
  }

  // ---------- the reverse reader ----------

  /** The greatest index of `c` in `s`, or -1. */
  function LastIndexOf(s: string, c: char): (i: int)
    ensures -1 <= i < |s|
    ensures i >= 0 ==> s[i] == c
    ensures forall j :: i < j < |s| ==> s[j] != c
  {
    if s == [] then -1
    else if s[|s| - 1] == c then |s| - 1
    else LastIndexOf(s[..|s| - 1], c)
  }

  class ReverseLineReader {
    const content: string
    const chunkSize: nat
    var pos: nat
    var buffer: string
    var bomStripped: bool

    constructor (content: string, chunkSize: nat)
      requires chunkSize >= 1
      ensures Valid() && this.content == content
      ensures Pending() == FileLines(content)
    {
      this.content, this.chunkSize := content, chunkSize;
      pos, buffer, bomStripped := |content|, [], false;
      new;
      assert content[..pos] == content;
      assert Unread() == StripBom(content);
    }

    ghost predicate Valid()
      reads this
    {
      chunkSize >= 1 && pos <= |content| && (bomStripped ==> pos == 0)
    }

    /** The text not yet returned: the unread part of the file, then the buffer. */
    ghost function Unread(): string
      requires Valid()
      reads this
    {
      StripBom(content[..pos]) + buffer
    }

    /** The lines not yet returned, in file order. */
    ghost function Pending(): seq<string>
      requires Valid()
      reads this
    {
      TextLines(Unread())
    }

    method NextLine() returns (line: Option<string>)
      requires Valid()
      modifies this
      ensures Valid()
      ensures line.None? <==> old(Pending()) == []
      ensures line.None? ==> Pending() == []
      ensures line.Some? ==> old(Pending()) == Pending() + [line.value]
    {
      hide TextLines, ChompCr, StripBom;
      while true
        invariant Valid() && Pending() == old(Pending())
        decreases pos, |buffer|
      {
        var nlIdx := LastIndexOf(buffer, LF);
        if nlIdx >= 0 {
          var last := buffer[nlIdx + 1..];
          ghost var before := StripBom(content[..pos]) + buffer[..nlIdx];
          assert Unread() == before + [LF] + last;
          LastLine(before, last);
          buffer := buffer[..nlIdx];
          if |last| == 0 {
            continue;
          }
          return Some(ChompCr(last));
        }
        if pos == 0 {
          EmptyHasNoBom(content[..pos]);
          assert Unread() == buffer;
          OnlyLine(buffer);
          if buffer == [] {
            return None;
          }
          var last := buffer;
          buffer := [];
          OnlyLine(buffer);
          assert Unread() == [];
          return Some(ChompCr(last));
        }
        Refill();
      }
    }

    /** Reads the chunk before the buffer; the BOM is dropped from the chunk that starts the file. */
    method Refill()
      requires Valid() && pos > 0
      modifies this
      ensures Valid() && pos < old(pos)
      ensures Unread() == old(Unread())
    {
      var readSize := Min(chunkSize, pos);
      var start := pos - readSize;
      var chunk := content[start..pos];
      assert content[..pos] == content[..start] + chunk;
      if !bomStripped && start == 0 {
        chunk := StripBom(chunk);
        bomStripped := true;
      }
      buffer := chunk + buffer;
      pos := start;
    }
  }

  /** Reading a file to its end. */
  method ReadBackwards(content: string, chunkSize: nat) returns (lines: seq<string>)
    requires chunkSize >= 1
    ensures lines == Reverse(FileLines(content))
  {
    hide FileLines, TextLines, StripBom;
    var reader := new ReverseLineReader(content, chunkSize);
    lines := [];
    while true
      invariant fresh(reader) && reader.Valid()
      invariant FileLines(content) == reader.Pending() + Reverse(lines)
      decreases |reader.Pending()|
    {
      var line := reader.NextLine();
      if line.None? {
        assert FileLines(content) == Reverse(lines);
        assert Reverse(Reverse(lines)) == lines;
        return;
      }
      lines := lines + [line.value];
      assert Reverse(lines) == [line.value] + Reverse(lines[..|lines| - 1]);
    }
  }

  // ---------- the line count ----------

  function LfCount(s: string): nat {
    if s == [] then 0 else (if s[0] == LF then 1 else 0) + LfCount(s[1..])
  }

  /** The number of lines counted for a file: its LFs, and one more for an unfinished last line. */
  function CountOf(content: string): nat {
    LfCount(content) + if content != [] && content[|content| - 1] != LF then 1 else 0
  }

  lemma {:induction false} LfCountAppend(a: string, b: string)
    ensures LfCount(a + b) == LfCount(a) + LfCount(b)
  {
    if a == [] {
      assert a + b == b;
    } else {
      assert (a + b)[1..] == a[1..] + b;
      LfCountAppend(a[1..], b);
    }
  }

  /** A file as a stream delivers it: pieces of at most `size` characters, none of them empty. */
  method StreamOf(content: string, size: nat) returns (chunks: seq<string>)
    requires size >= 1
    ensures Flatten(chunks) == content && forall i :: 0 <= i < |chunks| ==> 1 <= |chunks[i]| <= size
  {
    chunks := [];
    var at := 0;
    while at < |content|
      invariant 0 <= at <= |content| && Flatten(chunks) == content[..at]
      invariant forall i :: 0 <= i < |chunks| ==> 1 <= |chunks[i]| <= size
    {
      var next := Min(at + size, |content|);
      FlattenSnoc(chunks, content[at..next]);
      assert content[..at] + content[at..next] == content[..next];
      chunks := chunks + [content[at..next]];
      at := next;
    }
  }

  /** Counting over the stream's data events; a stream delivers no empty chunk. */
  method CountLinesInFile(chunks: seq<string>) returns (count: nat)
    requires forall i :: 0 <= i < |chunks| ==> chunks[i] != []
    ensures count == CountOf(Flatten(chunks))
  {
    count := 0;
    var sawAny, endsWithLF := false, false;
    for n := 0 to |chunks|
      invariant count == LfCount(Flatten(chunks[..n]))
      invariant sawAny <==> Flatten(chunks[..n]) != []
      invariant sawAny ==> endsWithLF == (Flatten(chunks[..n])[|Flatten(chunks[..n])| - 1] == LF)
    {
      var buf := chunks[n];
      assert chunks[..n + 1] == chunks[..n] + [buf];
      FlattenSnoc(chunks[..n], buf);
      LfCountAppend(Flatten(chunks[..n]), buf);
      sawAny := sawAny || |buf| > 0;
      endsWithLF := buf[|buf| - 1] == LF;
      ghost var base := count;
      for i := 0 to |buf|
        invariant count == base + LfCount(buf[..i])
      {
        LfCountAppend(buf[..i], [buf[i]]);
        assert buf[..i + 1] == buf[..i] + [buf[i]];
        if buf[i] == LF {
          count := count + 1;
        }
      }
      assert buf[..|buf|] == buf;
    }
    assert chunks[..|chunks|] == chunks;
    if sawAny && !endsWithLF {
      count := count + 1;
    }
  }

  lemma {:induction false} SegmentCount(s: string)
    ensures |Segments(s)| == LfCount(s) + 1
  {
    if s != [] {
      SegmentCount(s[1..]);
    }
  }

  lemma {:induction false} KeepIsNoLonger(segments: seq<string>)
    ensures |Keep(segments)| <= |segments|
  {
    if segments != [] {
      KeepIsNoLonger(segments[1..]);
    }
  }

  /** The count is an upper bound on the lines the reader yields. */
  lemma CountBoundsLines(content: string)
    ensures |FileLines(content)| <= CountOf(content)
  {
    var text := StripBom(content);
    if content != [] {
      assert content == [content[0]] + content[1..];
      LfCountAppend([content[0]], content[1..]);
    }
    assert LfCount(text) == LfCount(content);
    SegmentCount(text);
    KeepIsNoLonger(Segments(text));
    if text != [] && text[|text| - 1] == LF {
      var before := text[..|text| - 1];
      assert text == before + [LF] + [];
      LastLine(before, []);
      LfCountAppend(before, [LF]);
      assert text == before + [LF];
      SegmentCount(before);
      KeepIsNoLonger(Segments(before));
    }
  }
}
