/** The year-rollover stitcher: lines are fed newest first, and lines whose time format has no year
    are moved back by whole years so that the output does not rise. */
module Stitching {
  import opened Prelude
  import opened Calendar

  const JITTER_TOLERANCE_MS := 1500

  /** One line as the stitcher sees it. */
  datatype Stamp = Stamp(ts: int, yearless: bool)

  datatype Stitch = Stitch(shiftYears: int, last: Option<int>)

  const START := Stitch(0, None)

  /** `to` is the first shift below `from` that brings `ts` down to `last`. */
  ghost predicate FewestYearsBack(ts: int, from: int, last: int, to: int) {
    && to < from
    && ShiftByYears(ts, to) <= last
    && forall k :: to < k <= from ==> ShiftByYears(ts, k) > last
  }

  /** A line with a year passes through, and lowers the baseline if it is positive. */
  ghost predicate DatedStep(s: Stitch, ts: int, t: Stitch, out: int) {
    && out == ts
    && t.shiftYears == s.shiftYears
    && t.last == if ts <= 0 then s.last else Some(if s.last.None? then ts else Min(s.last.value, ts))
  }

  /** A yearless line becomes the baseline: shifted as before if that is in order, one millisecond below the
      baseline if it is out of order by at most the tolerance, else by the fewest extra years. */
  ghost predicate YearlessStep(s: Stitch, ts: int, t: Stitch, out: int) {
    var moved := ShiftByYears(ts, s.shiftYears);
    && t.last == Some(out)
    && if s.last.None? || moved <= s.last.value then
         t.shiftYears == s.shiftYears && out == moved
       else if moved - s.last.value <= JITTER_TOLERANCE_MS then
         t.shiftYears == s.shiftYears && out == s.last.value - 1
       else
         FewestYearsBack(ts, s.shiftYears, s.last.value, t.shiftYears) && out == ShiftByYears(ts, t.shiftYears)
  }

  ghost predicate Step(s: Stitch, line: Stamp, t: Stitch, out: int) {
    if line.yearless then YearlessStep(s, line.ts, t, out) else DatedStep(s, line.ts, t, out)
  }

  class YearlessStitcher {
    var shiftYears: int
    var last: Option<int>

    constructor ()
      ensures State() == START
    {
      shiftYears, last := 0, None;
    }

    ghost function State(): Stitch
      reads this
    {
      Stitch(shiftYears, last)
    }

    /** The year loop ends for every time value, also where `Date.UTC` remaps the years 0 to 99. */
    method Apply(ts: int, isYearless: bool) returns (out: int)
      modifies this
      ensures Step(old(State()), Stamp(ts, isYearless), State(), out)
    {
      hide ShiftByYears, YearOf;
      if !isYearless {
        if !(ts > 0) {
          return ts;
        }
        last := Some(if last.None? then ts else Min(last.value, ts));
        return ts;
      }
      var corrected := ShiftByYears(ts, shiftYears);
      if last.None? {
        last := Some(corrected);
        return corrected;
      }
      if corrected > last.value {
        var delta := corrected - last.value;
        var sameSecond := corrected / 1000 == last.value / 1000;
        if sameSecond || delta <= JITTER_TOLERANCE_MS {
          corrected := last.value - 1;
        } else {
          while corrected > last.value
            invariant shiftYears <= old(shiftYears) && last == old(last)
            invariant corrected == ShiftByYears(ts, shiftYears)
            invariant forall k :: shiftYears < k <= old(shiftYears) ==> ShiftByYears(ts, k) > last.value
            decreases if YearOf(ts) + shiftYears < 0 then 0 else YearOf(ts) + shiftYears + 1, corrected - last.value
          {
            OneYearBack(ts, shiftYears);
            shiftYears := shiftYears - 1;
            corrected := ShiftByYears(ts, shiftYears);
          }
        }
      }
      last := Some(corrected);
      return corrected;
    }
  }

  // ---------- whole runs ----------

  /** `states` are the states before the first line and after each line. */
  ghost predicate IsRun(lines: seq<Stamp>, states: seq<Stitch>, out: seq<int>) {
    && |states| == |lines| + 1 && |out| == |lines|
    && states[0] == START
    && forall i :: 0 <= i < |lines| ==> Step(states[i], lines[i], states[i + 1], out[i])
  }

  ghost predicate IsStitched(lines: seq<Stamp>, out: seq<int>) {
    exists states :: IsRun(lines, states, out)
  }

  /** The stitching loop of a pass over one log type. */
  method StitchAll(lines: seq<Stamp>) returns (out: seq<int>)
    ensures IsStitched(lines, out)
  {
    hide Step;
    var stitcher := new YearlessStitcher();
    out := [];
    ghost var states := [START];
    while |out| < |lines|
      invariant |out| <= |lines| && |states| == |out| + 1
      invariant fresh(stitcher) && stitcher.State() == states[|out|]
      invariant states[0] == START
      invariant forall i :: 0 <= i < |out| ==> Step(states[i], lines[i], states[i + 1], out[i])
    {
      var line := lines[|out|];
      var t := stitcher.Apply(line.ts, line.yearless);
      out := out + [t];
      states := states + [stitcher.State()];
    }
    assert IsRun(lines, states, out);
  }

  lemma StepIsDetermined(s: Stitch, line: Stamp, t: Stitch, out: int, t': Stitch, out': int)
    requires Step(s, line, t, out) && Step(s, line, t', out')
    ensures t == t' && out == out'
  {
  }

  /** The outputs depend on the lines alone. */
  lemma RunIsDetermined(lines: seq<Stamp>, out: seq<int>, out': seq<int>)
    requires IsStitched(lines, out) && IsStitched(lines, out')
    ensures out == out'
  {
    hide Step;
    var states :| IsRun(lines, states, out);
    var states' :| IsRun(lines, states', out');
    forall i | 0 <= i < |lines|
      ensures out[i] == out'[i]
    {
      StatesAgree(lines, states, out, states', out', i);
      StepIsDetermined(states[i], lines[i], states[i + 1], out[i], states'[i + 1], out'[i]);
    }
  }

  lemma {:induction false} StatesAgree(lines: seq<Stamp>, states: seq<Stitch>, out: seq<int>, states': seq<Stitch>, out': seq<int>, i: int)
    requires IsRun(lines, states, out) && IsRun(lines, states', out') && 0 <= i <= |lines|
    ensures states[i] == states'[i]
    decreases i
  {
    hide Step;
    if i > 0 {
      StatesAgree(lines, states, out, states', out', i - 1);
      StepIsDetermined(states[i - 1], lines[i - 1], states[i], out[i - 1], states'[i], out'[i - 1]);
    }
  }

  /** An output that the stitcher counts: every yearless line, and every positive time value. */
  predicate Counts(line: Stamp) {
    line.yearless || line.ts > 0
  }

  /** The baseline after `n` lines is the least counted output among them, if there is one. */
  ghost predicate IsLeast(lines: seq<Stamp>, out: seq<int>, n: int, low: Option<int>)
    requires 0 <= n <= |lines| == |out|
  {
    && (forall i :: 0 <= i < n && Counts(lines[i]) ==> low.Some? && low.value <= out[i])
    && (low.Some? ==> exists i :: 0 <= i < n && Counts(lines[i]) && out[i] == low.value)
  }

  lemma StepLowers(s: Stitch, line: Stamp, t: Stitch, out: int)
    requires Step(s, line, t, out)
    ensures t.shiftYears <= s.shiftYears
    ensures Counts(line) ==> t.last.Some? && t.last.value <= out && (s.last.Some? ==> t.last.value <= s.last.value)
    ensures !Counts(line) ==> t.last == s.last
    ensures t.last == s.last || (Counts(line) && t.last == Some(out))
    ensures line.yearless && s.last.Some? ==> out <= s.last.value
  {
  }

  lemma {:induction false} BaselineIsLeast(lines: seq<Stamp>, states: seq<Stitch>, out: seq<int>, n: int)
    requires IsRun(lines, states, out) && 0 <= n <= |lines|
    ensures IsLeast(lines, out, n, states[n].last)
    ensures states[n].shiftYears <= 0
    decreases n
  {
    hide Step;
    if n > 0 {
      BaselineIsLeast(lines, states, out, n - 1);
      StepLowers(states[n - 1], lines[n - 1], states[n], out[n - 1]);
      if states[n].last.Some? {
        if states[n].last == states[n - 1].last {
          var i :| 0 <= i < n - 1 && Counts(lines[i]) && out[i] == states[n - 1].last.value;
          assert 0 <= i < n && Counts(lines[i]) && out[i] == states[n].last.value;
        } else {
          assert Counts(lines[n - 1]) && out[n - 1] == states[n].last.value;
        }
      }
    }
  }

  /** In every run: dated lines keep their time value, and a yearless line is at most every counted output
      before it. */
  lemma YearlessNeverRises(lines: seq<Stamp>, out: seq<int>)
    requires IsStitched(lines, out)
    ensures forall i :: 0 <= i < |lines| && !lines[i].yearless ==> out[i] == lines[i].ts
    ensures forall i, j :: 0 <= i < j < |lines| && Counts(lines[i]) && lines[j].yearless ==> out[j] <= out[i]
  {
    var states :| IsRun(lines, states, out);
    forall i | 0 <= i < |lines| && !lines[i].yearless
      ensures out[i] == lines[i].ts
    {
      assert Step(states[i], lines[i], states[i + 1], out[i]);
    }
    forall i, j | 0 <= i < j < |lines| && Counts(lines[i]) && lines[j].yearless
      ensures out[j] <= out[i]
    {
      BaselineIsLeast(lines, states, out, j);
      StepLowers(states[j], lines[j], states[j + 1], out[j]);
    }
  }
}
