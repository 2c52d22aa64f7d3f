/** Two runs of the chunk writer in which calls overlap, step by step. */
module ChunkExamples {
  import opened Prelude
  import opened Entries
  import opened ChunkProtocol

  // ---------- calls that overlap ----------

  /** Chunks of one line; a call appends `x` and `y`, another `v` while the first waits for its flush. */
  function MixedSteps(x: LogEntry, y: LogEntry, v: LogEntry): seq<Step> {
    [Append(0, [x, y]), Push(0), Begin, Snapshot(0), Append(1, [v]), Push(1), Written(0), Resume(0), Push(0),
     Begin, Snapshot(0), Written(0), Begin, Snapshot(0), Resume(1), Finish(1), Resume(0), Finish(0)]
  }

  function MixedStage(x: LogEntry, y: LogEntry, v: LogEntry, n: nat): World {
    var a, b := Part(1, [x]), Part(2, [v, y]);
    var fst, both := map[a := 0], map[a := 0, b := 1];
    match n
    case 0 => Start(0)
    case 1 => World([], 0, 0, false, [], None, map[0 := Pushing([x, y], [])], [], 0, [], [], map[], {})
    case 2 => World([x], 1, 0, false, [0], None, map[0 := Waiting([y], [])], [], 0, [x], [], map[], {})
    case 3 => World([x], 1, 0, false, [], Some(Starting(0)), map[0 := Waiting([y], [])], [], 0, [x], [], map[], {})
    case 4 => World([], 0, 0, true, [], Some(Writing(0, [x])), map[0 := Waiting([y], [])], [], 0, [x], [], map[], {})
    case 5 => World([], 0, 0, true, [], Some(Writing(0, [x])), map[0 := Waiting([y], []), 1 := Pushing([v], [])],
                    [], 0, [x], [], map[], {})
    case 6 => World([v], 1, 0, true, [1], Some(Writing(0, [x])), map[0 := Waiting([y], []), 1 := Waiting([], [])],
                    [], 0, [x, v], [], map[], {})
    case 7 => World([v], 1, 1, true, [1], None, map[0 := Resuming([y], [], Some(a)), 1 := Waiting([], [])],
                    [], 0, [x, v], [a], fst, {})
    case 8 => World([v], 1, 1, true, [1], None, map[0 := Pushing([y], [a]), 1 := Waiting([], [])],
                    [], 0, [x, v], [a], fst, {})
    case 9 => World([v, y], 2, 1, true, [1, 0], None, map[0 := Waiting([], [a]), 1 := Waiting([], [])],
                    [], 0, [x, v, y], [a], fst, {})
    case 10 => World([v, y], 2, 1, true, [0], Some(Starting(1)), map[0 := Waiting([], [a]), 1 := Waiting([], [])],
                     [], 0, [x, v, y], [a], fst, {})
    case 11 => World([], 0, 1, true, [0], Some(Writing(1, [v, y])), map[0 := Waiting([], [a]), 1 := Waiting([], [])],
                     [], 0, [x, v, y], [a], fst, {})
    case 12 => World([], 0, 2, true, [0], None, map[0 := Waiting([], [a]), 1 := Resuming([], [], Some(b))],
                     [], 0, [x, v, y], [a, b], both, {})
    case 13 => World([], 0, 2, true, [], Some(Starting(0)), map[0 := Waiting([], [a]), 1 := Resuming([], [], Some(b))],
                     [], 0, [x, v, y], [a, b], both, {})
    case 14 => World([], 0, 2, true, [], None, map[0 := Resuming([], [a], None), 1 := Resuming([], [], Some(b))],
                     [], 0, [x, v, y], [a, b], both, {})
    case 15 => World([], 0, 2, true, [], None, map[0 := Resuming([], [a], None), 1 := Pushing([], [b])],
                     [], 0, [x, v, y], [a, b], both, {})
    case 16 => World([], 0, 2, true, [], None, map[0 := Resuming([], [a], None)],
                     [Chunk(b, 0)], 2, [x, v, y], [a, b], both, {1})
    case 17 => World([], 0, 2, true, [], None, map[0 := Pushing([], [a])],
                     [Chunk(b, 0)], 2, [x, v, y], [a, b], both, {1})
    case _ => World([], 0, 2, true, [], None, map[], [Chunk(b, 0), Chunk(a, 2)], 3, [x, v, y], [a, b], both, {0, 1})
  }

  ghost predicate MixedStep(x: LogEntry, y: LogEntry, v: LogEntry, n: nat)
    requires n < 18
  {
    var w, s := MixedStage(x, y, v, n), MixedSteps(x, y, v)[n];
    Enabled(w, s) && Next(w, s, 1) == MixedStage(x, y, v, n + 1)
  }

  lemma FirstBegins(x: LogEntry, y: LogEntry, v: LogEntry)
    ensures MixedStep(x, y, v, 0)
  {
    hide PushOne, TakeSnapshot, WritePart, AddChunks, Told, Answered;
  }

  lemma FirstPushes(x: LogEntry, y: LogEntry, v: LogEntry)
    ensures MixedStep(x, y, v, 1)
  {
    hide TakeSnapshot, WritePart, AddChunks, Told, Answered;
  }

  lemma FirstFlushes(x: LogEntry, y: LogEntry, v: LogEntry)
    ensures MixedStep(x, y, v, 2)
  {
    hide PushOne, TakeSnapshot, WritePart, AddChunks, Told, Answered;
  }

  lemma FirstIsTaken(x: LogEntry, y: LogEntry, v: LogEntry)
    ensures MixedStep(x, y, v, 3)
  {
    hide PushOne, WritePart, AddChunks, Told, Answered;
  }

  lemma OtherBegins(x: LogEntry, y: LogEntry, v: LogEntry)
    ensures MixedStep(x, y, v, 4)
  {
    hide PushOne, TakeSnapshot, WritePart, AddChunks, Told, Answered;
  }

  lemma OtherPushes(x: LogEntry, y: LogEntry, v: LogEntry)
    ensures MixedStep(x, y, v, 5)
  {
    hide TakeSnapshot, WritePart, AddChunks, Told, Answered;
    assert [x] + [v] == [x, v] && [] + [v] == [v] && [v][1..] == [];
  }

  lemma FirstIsWritten(x: LogEntry, y: LogEntry, v: LogEntry)
    ensures MixedStep(x, y, v, 6)
  {
    hide PushOne, TakeSnapshot, AddChunks, Told;
  }

  lemma FirstResumes(x: LogEntry, y: LogEntry, v: LogEntry)
    ensures MixedStep(x, y, v, 7)
  {
    hide PushOne, TakeSnapshot, WritePart, AddChunks, Answered;
    assert [] + [Part(1, [x])] == [Part(1, [x])];
  }

  lemma FirstPushesAgain(x: LogEntry, y: LogEntry, v: LogEntry)
    ensures MixedStep(x, y, v, 8)
  {
    hide TakeSnapshot, WritePart, AddChunks, Told, Answered;
    var other: seq<Id> := [1];
    assert other + [0] == [1, 0] && [y][1..] == [];
    assert [x, v] + [y] == [x, v, y] && [v] + [y] == [v, y];
  }

  lemma OtherFlushes(x: LogEntry, y: LogEntry, v: LogEntry)
    ensures MixedStep(x, y, v, 9)
  {
    hide PushOne, TakeSnapshot, WritePart, AddChunks, Told, Answered;
    var chain: seq<Id> := [1, 0];
    assert chain[1..] == [0];
  }

  lemma BothAreTaken(x: LogEntry, y: LogEntry, v: LogEntry)
    ensures MixedStep(x, y, v, 10)
  {
    hide PushOne, WritePart, AddChunks, Told, Answered;
  }

  lemma BothAreWritten(x: LogEntry, y: LogEntry, v: LogEntry)
    ensures MixedStep(x, y, v, 11)
  {
    hide PushOne, TakeSnapshot, AddChunks, Told;
    assert [Part(1, [x])] + [Part(2, [v, y])] == [Part(1, [x]), Part(2, [v, y])];
  }

  lemma FirstFlushesAgain(x: LogEntry, y: LogEntry, v: LogEntry)
    ensures MixedStep(x, y, v, 12)
  {
    hide PushOne, TakeSnapshot, WritePart, AddChunks, Told, Answered;
  }

  lemma FirstFindsNothing(x: LogEntry, y: LogEntry, v: LogEntry)
    ensures MixedStep(x, y, v, 13)
  {
    hide PushOne, WritePart, AddChunks, Told;
  }

  lemma OtherResumes(x: LogEntry, y: LogEntry, v: LogEntry)
    ensures MixedStep(x, y, v, 14)
  {
    hide PushOne, TakeSnapshot, WritePart, AddChunks, Answered;
    assert [] + [Part(2, [v, y])] == [Part(2, [v, y])];
  }

  lemma OtherReturns(x: LogEntry, y: LogEntry, v: LogEntry)
    ensures MixedStep(x, y, v, 15)
  {
    hide PushOne, TakeSnapshot, WritePart, Told, Answered;
    var b := Part(2, [v, y]);
    assert [] + [Chunk(b, 0)] == [Chunk(b, 0)] && [b][1..] == [];
    assert AddChunks([], 0, [b]) == AddChunks([Chunk(b, 0)], 2, []);
  }

  lemma FirstResumesAgain(x: LogEntry, y: LogEntry, v: LogEntry)
    ensures MixedStep(x, y, v, 16)
  {
    hide PushOne, TakeSnapshot, WritePart, AddChunks, Answered;
  }

  lemma FirstReturns(x: LogEntry, y: LogEntry, v: LogEntry)
    ensures MixedStep(x, y, v, 17)
  {
    hide PushOne, TakeSnapshot, WritePart, Told, Answered;
    var a, b := Part(1, [x]), Part(2, [v, y]);
    assert [Chunk(b, 0)] + [Chunk(a, 2)] == [Chunk(b, 0), Chunk(a, 2)] && [a][1..] == [];
    assert AddChunks([Chunk(b, 0)], 2, [a]) == AddChunks([Chunk(b, 0), Chunk(a, 2)], 3, []);
  }

  /** Two appends that overlap: `x`, `y` and `v` are pushed in an order that is neither call after the other, and
      the manifest lists them in yet another, although nothing is lost. */
  lemma OverlapMixesEntries(x: LogEntry, y: LogEntry, v: LogEntry) returns (run: seq<World>)
    ensures IsRun(run, MixedSteps(x, y, v), 0, 1)
    ensures AtRest(run[18]) && run[18].buffer == [] && run[18].pushed == [x, v, y] && Recorded(run[18]) == [v, y, x]
  {
    FirstBegins(x, y, v);
    FirstPushes(x, y, v);
    FirstFlushes(x, y, v);
    FirstIsTaken(x, y, v);
    OtherBegins(x, y, v);
    OtherPushes(x, y, v);
    FirstIsWritten(x, y, v);
    FirstResumes(x, y, v);
    FirstPushesAgain(x, y, v);
    OtherFlushes(x, y, v);
    BothAreTaken(x, y, v);
    BothAreWritten(x, y, v);
    FirstFlushesAgain(x, y, v);
    FirstFindsNothing(x, y, v);
    OtherResumes(x, y, v);
    OtherReturns(x, y, v);
    FirstResumesAgain(x, y, v);
    FirstReturns(x, y, v);
    hide Next, Enabled;
    run := seq(19, n requires 0 <= n < 19 => MixedStage(x, y, v, n));
    assert forall i :: 0 <= i < 18 ==> MixedStep(x, y, v, i);
    MixedRecord(x, y, v);
  }

  lemma MixedRecord(x: LogEntry, y: LogEntry, v: LogEntry)
    ensures Recorded(MixedStage(x, y, v, 18)) == [v, y, x]
  {
    var lines := LinesOf(PartsOf(MixedStage(x, y, v, 18).chunks));
    assert lines == [[v, y]] + [[x]];
    FlattenSnoc([[v, y]], [x]);
    assert [[v, y]][1..] == [];
  }

  // ---------- a remainder that comes too early ----------

  /** Chunks of two lines; one call appends three entries, another asks for the remainder in between. */
  function LateSteps(x: LogEntry, y: LogEntry, z: LogEntry): seq<Step> {
    [Append(0, [x, y, z]), Push(0), Push(0), Begin, Snapshot(0), Remainder(1), Written(0), Resume(0), Push(0), Finish(0)]
  }

  function LateStage(x: LogEntry, y: LogEntry, z: LogEntry, n: nat): World {
    var part := Part(1, [x, y]);
    match n
    case 0 => Start(0)
    case 1 => World([], 0, 0, false, [], None, map[0 := Pushing([x, y, z], [])], [], 0, [], [], map[], {})
    case 2 => World([x], 1, 0, false, [], None, map[0 := Pushing([y, z], [])], [], 0, [x], [], map[], {})
    case 3 => World([x, y], 2, 0, false, [0], None, map[0 := Waiting([z], [])], [], 0, [x, y], [], map[], {})
    case 4 => World([x, y], 2, 0, false, [], Some(Starting(0)), map[0 := Waiting([z], [])], [], 0, [x, y], [], map[], {})
    case 5 => World([], 0, 0, true, [], Some(Writing(0, [x, y])), map[0 := Waiting([z], [])], [], 0, [x, y], [], map[], {})
    case 6 => World([], 0, 0, true, [], Some(Writing(0, [x, y])), map[0 := Waiting([z], [])], [], 0, [x, y], [], map[], {1})
    case 7 => World([], 0, 1, true, [], None, map[0 := Resuming([z], [], Some(part))], [], 0, [x, y], [part], map[part := 0], {1})
    case 8 => World([], 0, 1, true, [], None, map[0 := Pushing([z], [part])], [], 0, [x, y], [part], map[part := 0], {1})
    case 9 => World([z], 1, 1, true, [], None, map[0 := Pushing([], [part])], [], 0, [x, y, z], [part], map[part := 0], {1})
    case _ => World([z], 1, 1, true, [], None, map[], [Chunk(part, 0)], 2, [x, y, z], [part], map[part := 0], {0, 1})
  }

  ghost predicate LateStep(x: LogEntry, y: LogEntry, z: LogEntry, n: nat)
    requires n < 10
  {
    var w, s := LateStage(x, y, z, n), LateSteps(x, y, z)[n];
    Enabled(w, s) && Next(w, s, 2) == LateStage(x, y, z, n + 1)
  }

  lemma PushesFirst(x: LogEntry, y: LogEntry, z: LogEntry)
    ensures LateStep(x, y, z, 0) && LateStep(x, y, z, 1)
  {
  }

  lemma FillsTheChunk(x: LogEntry, y: LogEntry, z: LogEntry)
    ensures LateStep(x, y, z, 2) && LateStep(x, y, z, 3)
  {
  }

  lemma SnapshotThenRemainder(x: LogEntry, y: LogEntry, z: LogEntry)
    ensures LateStep(x, y, z, 4) && LateStep(x, y, z, 5)
  {
  }

  lemma WrittenThenResumed(x: LogEntry, y: LogEntry, z: LogEntry)
    ensures LateStep(x, y, z, 6) && LateStep(x, y, z, 7)
  {
    assert [] + [Part(1, [x, y])] == [Part(1, [x, y])];
  }

  lemma PushesLast(x: LogEntry, y: LogEntry, z: LogEntry)
    ensures LateStep(x, y, z, 8) && LateStep(x, y, z, 9)
  {
    var part := Part(1, [x, y]);
    assert [x, y] + [z] == [x, y, z] && [] + [z] == [z] && [z][1..] == [];
    assert [] + [Chunk(part, 0)] == [Chunk(part, 0)] && [part][1..] == [];
    assert AddChunks([], 0, [part]) == AddChunks([Chunk(part, 0)], 2, []);
  }

  /** A remainder flush asked for while an append waits for its own flush finds the buffer empty and writes
      nothing; what the append then pushes stays in the buffer although every call has returned. */
  lemma LateEntryStaysBehind(x: LogEntry, y: LogEntry, z: LogEntry) returns (run: seq<World>)
    ensures IsRun(run, LateSteps(x, y, z), 0, 2)
    ensures AtRest(run[10]) && run[10].finished == {0, 1} && run[10].pushed == [x, y, z] && run[10].buffer == [z]
  {
    PushesFirst(x, y, z);
    FillsTheChunk(x, y, z);
    SnapshotThenRemainder(x, y, z);
    WrittenThenResumed(x, y, z);
    PushesLast(x, y, z);
    hide Next, Enabled;
    run := seq(11, n requires 0 <= n < 11 => LateStage(x, y, z, n));
    assert forall i :: 0 <= i < 10 ==> LateStep(x, y, z, i);
  }
}
