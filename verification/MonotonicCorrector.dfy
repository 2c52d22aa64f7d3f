/** The monotonic timestamp corrector: lines of one log type are fed newest first, and every returned
    time value is at most the one before it. */
module MonotonicCorrection {
  import opened Prelude

  const SMALL_DELTA_MS := 1500

  datatype Correction = Correction(last: Option<int>, offset: int)

  const START := Correction(None, 0)

  /** The time value cut down to its slot of `granularity` milliseconds (at least one). */
  function Slot(raw: int, granularity: int): (r: int)
    ensures r <= raw < r + Max(1, granularity)
  {
    var slot := Max(1, granularity);
    assert raw / slot * slot + raw % slot == raw;
    raw / slot * slot
  }

  /** The state after a line; its `last` is what the line is given. */
  function After(c: Correction, raw: int, granularity: int): (r: Correction)
    ensures r.last.Some?
  {
    var moved := Slot(raw, granularity) + c.offset;
    if c.last.None? || moved <= c.last.value then Correction(Some(moved), c.offset)
    else if moved - c.last.value <= SMALL_DELTA_MS then Correction(Some(c.last.value - 1), c.offset)
    else Correction(c.last, c.offset - (moved - c.last.value))
  }

  class MonotonicCorrector {
    var lastCorrected: Option<int>
    var globalOffsetMs: int
    const granularityMs: int

    constructor (granularityMs: int)
      ensures State() == START && this.granularityMs == granularityMs
    {
      this.granularityMs := granularityMs;
      lastCorrected, globalOffsetMs := None, 0;
    }

    ghost function State(): Correction
      reads this
    {
      Correction(lastCorrected, globalOffsetMs)
    }

    method Adjust(rawTs: int) returns (corrected: int)
      modifies this
      ensures State() == After(old(State()), rawTs, granularityMs)
      ensures corrected == State().last.value
    {
      var slotMs := Max(1, granularityMs);
      var clamped := rawTs / slotMs * slotMs;
      corrected := clamped + globalOffsetMs;
      if lastCorrected.Some? && corrected > lastCorrected.value {
        var diffMs := corrected - lastCorrected.value;
        if diffMs <= SMALL_DELTA_MS {
          corrected := lastCorrected.value - 1;
        } else {
          globalOffsetMs := globalOffsetMs - diffMs;
          corrected := clamped + globalOffsetMs;
        }
      }
      lastCorrected := Some(corrected);
    }
  }

  // ---------- whole runs ----------

  /** The states after each line of a run. */
  function Run(c: Correction, raws: seq<int>, granularity: int): (r: seq<Correction>)
    ensures |r| == |raws|
    ensures forall i :: 0 <= i < |r| ==> r[i].last.Some?
    decreases |raws|
  {
    if raws == [] then [] else
      var next := After(c, raws[0], granularity);
      [next] + Run(next, raws[1..], granularity)
  }

  /** The values given to the lines of a run of a fresh corrector. */
  function Outputs(raws: seq<int>, granularity: int): (r: seq<int>)
    ensures |r| == |raws|
  {
    var states := Run(START, raws, granularity);
    seq(|states|, i requires 0 <= i < |states| => states[i].last.value)
  }

  function StateBefore(c: Correction, states: seq<Correction>, i: int): Correction
    requires 0 <= i < |states|
  {
    if i == 0 then c else states[i - 1]
  }

  lemma {:induction false} RunSteps(c: Correction, raws: seq<int>, g: int, i: int)
    requires 0 <= i < |raws|
    ensures Run(c, raws, g)[i] == After(StateBefore(c, Run(c, raws, g), i), raws[i], g)
    decreases i
  {
    if i > 0 {
      RunSteps(After(c, raws[0], g), raws[1..], g, i - 1);
    }
  }

  /** The correcting loop of a pass over one log type. */
  method CorrectAll(raws: seq<int>, granularity: int) returns (out: seq<int>)
    ensures out == Outputs(raws, granularity)
  {
    var corrector := new MonotonicCorrector(granularity);
    out := [];
    while |out| < |raws|
      invariant fresh(corrector) && corrector.granularityMs == granularity
      invariant |out| <= |raws|
      invariant |out| == 0 ==> corrector.State() == START
      invariant |out| > 0 ==> corrector.State() == Run(START, raws, granularity)[|out| - 1]
      invariant forall i :: 0 <= i < |out| ==> out[i] == Run(START, raws, granularity)[i].last.value
    {
      RunSteps(START, raws, granularity, |out|);
      var t := corrector.Adjust(raws[|out|]);
      out := out + [t];
    }
  }

  /** For every input and granularity, the outputs never rise. */
  lemma OutputsNeverRise(raws: seq<int>, g: int)
    ensures NonIncreasing(Outputs(raws, g))
  {
    var states := Run(START, raws, g);
    forall i, j | 0 <= i < j < |raws|
      ensures states[i].last.value >= states[j].last.value
    {
      NeverRise(raws, g, i, j);
    }
  }

  lemma {:induction false} NeverRise(raws: seq<int>, g: int, i: int, j: int)
    requires 0 <= i < j < |raws|
    ensures Run(START, raws, g)[i].last.value >= Run(START, raws, g)[j].last.value
  {
    RunSteps(START, raws, g, j);
    if i < j - 1 {
      NeverRise(raws, g, i, j - 1);
    }
  }

  /** A line is changed by exactly one of three moves, chosen by how far it stands above the line before. */
  lemma LineOutcome(raws: seq<int>, i: int)
    requires 0 < i < |raws|
    ensures var states, out := Run(START, raws, 1), Outputs(raws, 1);
            var rise := raws[i] + states[i - 1].offset - out[i - 1];
            && (rise <= 0 ==> out[i] - out[i - 1] == rise && states[i].offset == states[i - 1].offset)
            && (0 < rise <= SMALL_DELTA_MS ==> out[i] == out[i - 1] - 1 && states[i].offset == states[i - 1].offset)
            && (SMALL_DELTA_MS < rise ==> out[i] == out[i - 1] && states[i].offset == states[i - 1].offset - rise)
  {
    RunSteps(START, raws, 1, i);
  }

  /** What the shifted lines of a run may add to the offset: each its raw step up and 1501 ms. */
  function ShiftBudget(raws: seq<int>, states: seq<Correction>, n: nat): int
    requires n <= |raws| == |states|
  {
    if n <= 1 then 0
    else ShiftBudget(raws, states, n - 1) +
         if states[n - 1].offset < states[n - 2].offset then raws[n - 1] - raws[n - 2] + SMALL_DELTA_MS + 1 else 0
  }

  /** Drift with one-millisecond slots: each output is within 1501 ms of its offset value, the offset
      never rises above its earlier value or zero, and its size is paid for by the shifted lines. */
  lemma {:induction false} DriftIsBounded(raws: seq<int>, i: int)
    requires 0 <= i < |raws|
    ensures var states, out := Run(START, raws, 1), Outputs(raws, 1);
            && raws[i] + states[i].offset - SMALL_DELTA_MS - 1 <= out[i] <= raws[i] + states[i].offset
            && states[i].offset <= 0
            && (i > 0 ==> states[i].offset <= states[i - 1].offset)
            && -states[i].offset <= ShiftBudget(raws, states, i + 1)
  {
    RunSteps(START, raws, 1, i);
    if i > 0 {
      DriftIsBounded(raws, i - 1);
    }
  }

  lemma {:induction false} FallingInputUntouched(raws: seq<int>, i: int)
    requires NonIncreasing(raws) && 0 <= i < |raws|
    ensures Run(START, raws, 1)[i] == Correction(Some(raws[i]), 0)
  {
    RunSteps(START, raws, 1, i);
    if i > 0 {
      FallingInputUntouched(raws, i - 1);
    }
  }

  /** With one-millisecond slots the input is returned as it is exactly when it never rises. */
  lemma UnchangedIffFalling(raws: seq<int>)
    ensures Outputs(raws, 1) == raws <==> NonIncreasing(raws)
  {
    OutputsNeverRise(raws, 1);
    if NonIncreasing(raws) {
      forall i | 0 <= i < |raws| {
        FallingInputUntouched(raws, i);
      }
    }
  }

  /** A fresh second pass over the outputs changes nothing. */
  lemma SecondPassChangesNothing(raws: seq<int>)
    ensures Outputs(Outputs(raws, 1), 1) == Outputs(raws, 1)
  {
    OutputsNeverRise(raws, 1);
    UnchangedIffFalling(Outputs(raws, 1));
  }
}
