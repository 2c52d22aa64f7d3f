/** The time-zone jump corrector: it suspects a jump when a line rises by hours, and confirms it, for the
    suspected lines only, when a later line comes back past the line before the jump. */
module TimezoneCorrection {
  import opened Prelude

  const HOUR := 3600000
  const MIN_JUMP_HOURS := 3
  const MIN_RETURN_HOURS := 1
  const MAX_TZ_OFFSET_HOURS := 14

  datatype Suspect = Suspect(startIndex: int, firstJump: int, preJump: int, positive: bool, diffMs: int)

  /** Lines `start..end` (inclusive) are to be moved by `deltaMs`. */
  datatype Segment = Segment(start: int, end: int, deltaMs: int)

  datatype Corrector = Corrector(
    lastCorrected: Option<int>,
    lastRaw: Option<int>,
    suspected: Option<Suspect>,
    retro: seq<Segment>)

  const START := Corrector(None, None, None, [])

  function Abs(x: int): nat {
    if x < 0 then -x else x
  }

  /** A jump size in whole hours, rounded half up and kept between 1 and 14. */
  function WholeHours(diffMs: int): int {
    Min(MAX_TZ_OFFSET_HOURS, Max(1, (diffMs + HOUR / 2) / HOUR))
  }

  predicate Returned(s: Suspect, raw: int) {
    var movedBackEnough := if s.positive then s.firstJump - raw >= MIN_RETURN_HOURS * HOUR
                           else raw - s.firstJump >= MIN_RETURN_HOURS * HOUR;
    var crossedBaseline := if s.positive then raw <= s.preJump else raw >= s.preJump;
    movedBackEnough && crossedBaseline
  }

  function Confirm(c: Corrector, raw: int, index: int): Corrector {
    if c.suspected.None? || !Returned(c.suspected.value, raw) then c else
      var s := c.suspected.value;
      var delta := (if s.positive then -1 else 1) * WholeHours(s.diffMs) * HOUR;
      c.(retro := c.retro + [Segment(s.startIndex, Max(s.startIndex, index - 1), delta)], suspected := None)
  }

  function Record(c: Corrector, raw: int, index: int): (r: Corrector)
    ensures r.lastCorrected.Some?
  {
    if c.lastCorrected.None? || raw <= c.lastCorrected.value then
      c.(lastCorrected := Some(raw), lastRaw := Some(raw))
    else if c.lastRaw.Some? && Abs(raw - c.lastRaw.value) >= MIN_JUMP_HOURS * HOUR then
      var jump := raw - c.lastRaw.value;
      var s := if c.suspected.Some? then c.suspected
               else Some(Suspect(index, raw, c.lastRaw.value, jump > 0, Abs(jump)));
      c.(suspected := s, lastCorrected := Some(raw), lastRaw := Some(raw))
    else
      c.(lastCorrected := Some(c.lastCorrected.value - 1), lastRaw := Some(raw))
  }

  class TimezoneCorrector {
    var lastCorrected: Option<int>
    var lastRawTs: Option<int>
    var suspected: Option<Suspect>
    var retroSegments: seq<Segment>

    constructor ()
      ensures State() == START
    {
      lastCorrected, lastRawTs, suspected, retroSegments := None, None, None, [];
    }

    ghost function State(): Corrector
      reads this
    {
      Corrector(lastCorrected, lastRawTs, suspected, retroSegments)
    }

    method Adjust(rawTs: int, index: int) returns (corrected: int)
      modifies this
      ensures State() == Record(Confirm(old(State()), rawTs, index), rawTs, index)
      ensures corrected == State().lastCorrected.value
    {
      if suspected.Some? {
        var s := suspected.value;
        var movedBackEnough :=
          if s.positive then s.firstJump - rawTs >= MIN_RETURN_HOURS * HOUR
          else rawTs - s.firstJump >= MIN_RETURN_HOURS * HOUR;
        var crossedBaseline := if s.positive then rawTs <= s.preJump else rawTs >= s.preJump;
        if movedBackEnough && crossedBaseline {
          var sign := if s.positive then -1 else 1;
          var roundedHours := Min(MAX_TZ_OFFSET_HOURS, Max(1, (s.diffMs + HOUR / 2) / HOUR));
          var deltaMs := sign * roundedHours * HOUR;
          var end := Max(s.startIndex, index - 1);
          if end >= s.startIndex {
            retroSegments := retroSegments + [Segment(s.startIndex, end, deltaMs)];
          }
          suspected := None;
        }
      }
      corrected := rawTs;
      if lastCorrected.None? || corrected <= lastCorrected.value {
        lastCorrected, lastRawTs := Some(corrected), Some(rawTs);
        return;
      }
      if lastRawTs.Some? {
        var diffMs := rawTs - lastRawTs.value;
        if Abs(diffMs) >= MIN_JUMP_HOURS * HOUR {
          if suspected.None? {
            suspected := Some(Suspect(index, rawTs, lastRawTs.value, diffMs > 0, Abs(diffMs)));
          }
          lastCorrected, lastRawTs := Some(corrected), Some(rawTs);
          return;
        }
      }
      corrected := lastCorrected.value - 1;
      lastCorrected, lastRawTs := Some(corrected), Some(rawTs);
    }

    method FinalizeSuspected() returns (had: bool)
      modifies this
      ensures had == old(suspected).Some?
      ensures State() == old(State()).(suspected := None)
    {
      had := suspected.Some?;
      suspected := None;
    }

    method DrainRetroSegments() returns (out: seq<Segment>)
      modifies this
      ensures out == old(retroSegments)
      ensures State() == old(State()).(retro := [])
    {
      out := retroSegments;
      retroSegments := [];
    }
  }

  // ---------- whole runs ----------

  datatype Line = Line(raw: int, index: int)

  datatype Event = Feed(line: Line) | Drain | Finalize

  /** A corrector, the lines it was fed, and the segments its caller has drained so far. */
  datatype History = History(now: Corrector, fed: seq<Line>, drained: seq<Segment>)
  {
    function Issued(): seq<Segment> { drained + now.retro }
  }

  /** A fed line comes with a larger index than the line before it. */
  predicate Allowed(h: History, e: Event) {
    e.Feed? && h.fed != [] ==> h.fed[|h.fed| - 1].index < e.line.index
  }

  function Next(h: History, e: Event): History {
    match e
    case Feed(line) =>
      History(Record(Confirm(h.now, line.raw, line.index), line.raw, line.index), h.fed + [line], h.drained)
    case Drain => History(h.now.(retro := []), h.fed, h.drained + h.now.retro)
    case Finalize => h.(now := h.now.(suspected := None))
  }

  ghost predicate IsRun(run: seq<History>, events: seq<Event>) {
    && |run| == |events| + 1
    && run[0] == History(START, [], [])
    && forall i :: 0 <= i < |events| ==> Allowed(run[i], events[i]) && run[i + 1] == Next(run[i], events[i])
  }

  predicate Beyond(raw: int, baseline: int, positive: bool) {
    if positive then raw > baseline else raw < baseline
  }

  /** The lines from position `n` up to `r` all stand beyond the line before them. */
  ghost predicate StandBeyond(fed: seq<Line>, n: int, r: int)
    requires 0 < n < |fed| && r <= |fed|
  {
    forall m :: n <= m < r ==> Beyond(fed[m].raw, fed[n - 1].raw, fed[n].raw > fed[n - 1].raw)
  }

  /** A segment covers exactly the lines between a jump of hours (line `n`) and its return (line `r`). */
  ghost predicate JustifiedBy(fed: seq<Line>, g: Segment, n: int, r: int) {
    && 0 < n < r < |fed|
    && g.start == fed[n].index && g.end == fed[r].index - 1
    && StandBeyond(fed, n, r)
    && !Beyond(fed[r].raw, fed[n - 1].raw, fed[n].raw > fed[n - 1].raw)
    && var jump := fed[n].raw - fed[n - 1].raw;
    && Abs(jump) >= MIN_JUMP_HOURS * HOUR
    && g.deltaMs == (if jump > 0 then -1 else 1) * WholeHours(Abs(jump)) * HOUR
  }

  ghost predicate Justified(fed: seq<Line>, g: Segment) {
    exists n, r :: JustifiedBy(fed, g, n, r)
  }

  ghost predicate OpenAt(h: History, n: int)
    requires h.now.suspected.Some?
  {
    var s := h.now.suspected.value;
    && 0 < n < |h.fed|
    && s.startIndex == h.fed[n].index && s.firstJump == h.fed[n].raw && s.preJump == h.fed[n - 1].raw
    && s.diffMs == Abs(s.firstJump - s.preJump) >= MIN_JUMP_HOURS * HOUR
    && s.positive == (s.firstJump > s.preJump)
    && StandBeyond(h.fed, n, |h.fed|)
  }

  ghost predicate IndicesRise(fed: seq<Line>) {
    forall i, j :: 0 <= i < j < |fed| ==> fed[i].index < fed[j].index
  }

  ghost predicate SegmentsApart(gs: seq<Segment>) {
    forall i, j :: 0 <= i < j < |gs| ==> gs[i].end < gs[j].start
  }

  ghost predicate Sound(h: History) {
    && IndicesRise(h.fed)
    && h.now.lastRaw == (if h.fed == [] then None else Some(h.fed[|h.fed| - 1].raw))
    && (h.now.lastCorrected.None? <==> h.fed == [])
    && SegmentsApart(h.Issued())
    && (forall i :: 0 <= i < |h.Issued()| ==> Justified(h.fed, h.Issued()[i]))
    && (h.now.suspected.Some? ==>
          && (exists n :: OpenAt(h, n))
          && forall i :: 0 <= i < |h.Issued()| ==> h.Issued()[i].end < h.now.suspected.value.startIndex)
  }

  lemma WholeHoursRange(diffMs: int)
    requires diffMs >= MIN_JUMP_HOURS * HOUR
    ensures 3 <= WholeHours(diffMs) <= 14
  {
  }

  /** A line that has not returned stands beyond the baseline, whichever way the jump went. */
  lemma ReturnedIsCrossing(s: Suspect, raw: int)
    requires s.diffMs == Abs(s.firstJump - s.preJump) >= MIN_JUMP_HOURS * HOUR
    requires s.positive == (s.firstJump > s.preJump)
    ensures Returned(s, raw) <==> !Beyond(raw, s.preJump, s.positive)
  {
  }

  lemma JustifiedGrows(fed: seq<Line>, line: Line, g: Segment)
    requires Justified(fed, g)
    ensures Justified(fed + [line], g)
  {
    var n, r :| JustifiedBy(fed, g, n, r);
    assert JustifiedBy(fed + [line], g, n, r);
  }

  lemma JustifiedInside(fed: seq<Line>, g: Segment)
    requires Justified(fed, g) && IndicesRise(fed)
    ensures g.start <= g.end < fed[|fed| - 1].index
  {
  }

  lemma OldSegmentsStay(h: History, line: Line, i: int)
    requires Sound(h) && Allowed(h, Feed(line)) && 0 <= i < |h.Issued()|
    ensures Justified(h.fed + [line], h.Issued()[i]) && h.Issued()[i].end < line.index
  {
    JustifiedGrows(h.fed, line, h.Issued()[i]);
    JustifiedInside(h.fed, h.Issued()[i]);
  }

  /** The state between the confirming and the recording half of a feed. */
  ghost predicate Confirmed(h: History, c: Corrector, line: Line) {
    var issued := h.drained + c.retro;
    && SegmentsApart(issued)
    && (forall i :: 0 <= i < |issued| ==> Justified(h.fed + [line], issued[i]) && issued[i].end < line.index)
    && (c.suspected.Some? ==>
          && (exists n :: OpenAt(History(c, h.fed + [line], h.drained), n))
          && forall i :: 0 <= i < |issued| ==> issued[i].end < c.suspected.value.startIndex)
  }

  lemma ReturnConfirms(h: History, line: Line)
    requires Sound(h) && Allowed(h, Feed(line))
    requires h.now.suspected.Some? && Returned(h.now.suspected.value, line.raw)
    ensures Confirmed(h, Confirm(h.now, line.raw, line.index), line)
  {
    var c, fed := Confirm(h.now, line.raw, line.index), h.fed + [line];
    var s := h.now.suspected.value;
    var n :| OpenAt(h, n);
    ReturnedIsCrossing(s, line.raw);
    assert h.fed[n].index <= h.fed[|h.fed| - 1].index < line.index;
    var g := Segment(s.startIndex, line.index - 1, (if s.positive then -1 else 1) * WholeHours(s.diffMs) * HOUR);
    assert h.drained + c.retro == h.Issued() + [g];
    assert JustifiedBy(fed, g, n, |h.fed|) by {
      hide WholeHours;
      assert StandBeyond(fed, n, |h.fed|);
    }
    forall i | 0 <= i < |h.Issued()| {
      OldSegmentsStay(h, line, i);
    }
  }

  lemma OtherwiseNothingHappens(h: History, line: Line)
    requires Sound(h) && Allowed(h, Feed(line))
    requires h.now.suspected.None? || !Returned(h.now.suspected.value, line.raw)
    ensures Confirmed(h, Confirm(h.now, line.raw, line.index), line)
  {
    assert h.drained + h.now.retro == h.Issued();
    forall i | 0 <= i < |h.Issued()| {
      OldSegmentsStay(h, line, i);
    }
    if h.now.suspected.Some? {
      var n :| OpenAt(h, n);
      ReturnedIsCrossing(h.now.suspected.value, line.raw);
      assert OpenAt(History(h.now, h.fed + [line], h.drained), n);
    }
  }

  lemma FeedKeepsSound(h: History, line: Line)
    requires Sound(h) && Allowed(h, Feed(line))
    ensures Sound(Next(h, Feed(line)))
  {
    if h.now.suspected.Some? && Returned(h.now.suspected.value, line.raw) {
      ReturnConfirms(h, line);
    } else {
      OtherwiseNothingHappens(h, line);
    }
    var c := Confirm(h.now, line.raw, line.index);
    var k := Next(h, Feed(line));
    assert k.Issued() == h.drained + c.retro;
    if c.suspected.Some? {
      var n :| OpenAt(History(c, k.fed, h.drained), n);
      assert OpenAt(k, n);
    } else if k.now.suspected.Some? {
      assert OpenAt(k, |h.fed|);
    }
  }

  /** What feeding one line does to the segments, both ways: an open suspicion ends with exactly one new
      segment, up to the line before, at the first line that is back at the baseline, and is kept by every
      other line; with none open, one opens exactly at a line above the last corrected value that is three
      hours or more away from the line before it. */
  lemma FeedOutcome(h: History, line: Line)
    requires Sound(h) && Allowed(h, Feed(line))
    ensures var k := Next(h, Feed(line));
            if h.now.suspected.Some? then
              var s := h.now.suspected.value;
              if Beyond(line.raw, s.preJump, s.positive) then
                k.Issued() == h.Issued() && k.now.suspected == h.now.suspected
              else
                exists g :: k.Issued() == h.Issued() + [g] && g.start == s.startIndex && g.end == line.index - 1
            else
              && k.Issued() == h.Issued()
              && (k.now.suspected.Some? <==>
                    && h.fed != []
                    && line.raw > h.now.lastCorrected.value
                    && Abs(line.raw - h.fed[|h.fed| - 1].raw) >= MIN_JUMP_HOURS * HOUR)
  {
  }

  lemma StepKeepsSound(h: History, e: Event)
    requires Sound(h) && Allowed(h, e)
    ensures Sound(Next(h, e))
  {
    var k := Next(h, e);
    match e
    case Feed(line) => FeedKeepsSound(h, line);
    case Drain =>
      assert k.Issued() == h.Issued();
      if h.now.suspected.Some? {
        var n :| OpenAt(h, n);
        assert OpenAt(k, n);
      }
    case Finalize =>
      assert k.Issued() == h.Issued();
  }

  lemma {:induction false} RunIsSound(run: seq<History>, events: seq<Event>, i: int)
    requires IsRun(run, events) && 0 <= i < |run|
    ensures Sound(run[i])
    decreases i
  {
    if i > 0 {
      RunIsSound(run, events, i - 1);
      StepKeepsSound(run[i - 1], events[i - 1]);
    }
  }

  /** In every state of every run, drained and waiting segments together are non-empty ranges, apart from
      each other and rising, ended before the newest line, and each covers the lines of a jump of at least
      three hours, all strictly beyond the line before the jump, with a delta of 3 to 14 whole hours that
      points against the jump. */
  lemma RetroSegmentsAreSound(run: seq<History>, events: seq<Event>, i: int, k: int)
    requires IsRun(run, events) && 0 <= i < |run|
    requires 0 <= k < |run[i].Issued()|
    ensures var fed, g := run[i].fed, run[i].Issued()[k];
            && g.start <= g.end
            && fed != [] && g.end < fed[|fed| - 1].index
            && (k > 0 ==> run[i].Issued()[k - 1].end < g.start)
            && 3 * HOUR <= Abs(g.deltaMs) <= 14 * HOUR && g.deltaMs % HOUR == 0
            && exists n, r :: JustifiedBy(fed, g, n, r) && (g.deltaMs < 0 <==> fed[n].raw > fed[n - 1].raw)
  {
    RunIsSound(run, events, i);
    var fed, g := run[i].fed, run[i].Issued()[k];
    JustifiedInside(fed, g);
    var n, r :| JustifiedBy(fed, g, n, r);
    WholeHoursRange(Abs(fed[n].raw - fed[n - 1].raw));
  }
}
