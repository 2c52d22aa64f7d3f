/** The chunk writer under concurrent callers, as a machine whose steps are the stretches of code between
    awaits: callers push into one buffer, flushes run one at a time along a serial chain, and each caller
    records the parts it is told of in the manifest when its own call returns. */
module ChunkProtocol {
  import opened Prelude
  import opened Entries

  /** A part file: its number and the entries written to it. */
  datatype Part = Part(number: nat, lines: seq<LogEntry>)

  /** A chunk of the manifest: a part and its first position in the merged whole. */
  datatype Chunk = Chunk(part: Part, start: nat)

  type Id = nat

  /** A call in progress: what it has still to push and the parts it was told of. */
  datatype Caller =
    | Pushing(rest: seq<LogEntry>, told: seq<Part>)
    | Waiting(rest: seq<LogEntry>, told: seq<Part>)
    | Resuming(rest: seq<LogEntry>, told: seq<Part>, result: Option<Part>)

  /** The flush at the head of the chain: before it takes the buffer, or while it writes what it took. */
  datatype Flush = Starting(caller: Id) | Writing(caller: Id, snapshot: seq<LogEntry>)

  datatype World = World(
    buffer: seq<LogEntry>,
    writtenThisChunk: nat,
    currentIndex: nat,
    fsIndexInitialized: bool,
    chain: seq<Id>,
    flush: Option<Flush>,
    callers: map<Id, Caller>,
    chunks: seq<Chunk>,
    mergedSoFar: nat,
    // history: everything pushed, in order; the part files in the order of writing; who was told of each
    pushed: seq<LogEntry>,
    parts: seq<Part>,
    tellee: map<Part, Id>,
    finished: set<Id>)

  datatype Step =
    | Append(id: Id, entries: seq<LogEntry>)
    | Remainder(id: Id)
    | Push(id: Id)
    | Begin
    | Snapshot(found: nat)
    | Written(taken: nat)
    | Resume(id: Id)
    | Finish(id: Id)

  function Start(startIndex: nat): World {
    World([], 0, startIndex, false, [], None, map[], [], 0, [], [], map[], {})
  }

  predicate Enabled(w: World, s: Step) {
    match s
    case Append(id, _) => id !in w.callers && id !in w.finished
    case Remainder(id) => id !in w.callers && id !in w.finished
    case Push(id) => id in w.callers && w.callers[id].Pushing? && w.callers[id].rest != []
    case Begin => w.flush.None? && w.chain != []
    case Snapshot(_) => w.flush.Some? && w.flush.value.Starting?
    case Written(_) => w.flush.Some? && w.flush.value.Writing? && w.flush.value.caller in w.callers
    case Resume(id) => id in w.callers && w.callers[id].Resuming?
    case Finish(id) => id in w.callers && w.callers[id].Pushing? && w.callers[id].rest == []
  }

  /** One entry goes into the buffer; a full chunk sends the caller to wait for a flush. */
  function PushOne(w: World, id: Id, chunkMaxLines: int): World
    requires Enabled(w, Push(id))
  {
    var c := w.callers[id];
    var rest := c.rest[1..];
    var full := w.writtenThisChunk + 1 >= chunkMaxLines;
    w.(buffer := w.buffer + [c.rest[0]],
       pushed := w.pushed + [c.rest[0]],
       writtenThisChunk := w.writtenThisChunk + 1,
       chain := if full then w.chain + [id] else w.chain,
       callers := w.callers[id := if full then Waiting(rest, c.told) else Pushing(rest, c.told)])
  }

  /** The flush takes the whole buffer; the first one ever also looks up the last part number on disk. */
  function TakeSnapshot(w: World, found: nat): World
    requires Enabled(w, Snapshot(found))
  {
    var id := w.flush.value.caller;
    var index := if w.fsIndexInitialized then w.currentIndex else Max(w.currentIndex, found);
    var v := w.(buffer := [], writtenThisChunk := 0, currentIndex := index, fsIndexInitialized := true);
    if w.buffer != [] then v.(flush := Some(Writing(id, w.buffer)))
    else v.(flush := None, callers := Answered(w.callers, id, None))
  }

  function Answered(callers: map<Id, Caller>, id: Id, result: Option<Part>): map<Id, Caller> {
    if id in callers then callers[id := Resuming(callers[id].rest, callers[id].told, result)] else callers
  }

  /** The part file is in place, under the first number that was free. */
  function WritePart(w: World, taken: nat): World
    requires Enabled(w, Written(taken))
  {
    var id := w.flush.value.caller;
    var part := Part(w.currentIndex + taken + 1, w.flush.value.snapshot);
    w.(flush := None, currentIndex := part.number, parts := w.parts + [part],
       tellee := w.tellee[part := id], callers := Answered(w.callers, id, Some(part)))
  }

  /** The parts a call was told of, added to the manifest one after the other. */
  function AddChunks(chunks: seq<Chunk>, merged: nat, told: seq<Part>): (r: (seq<Chunk>, nat))
    decreases |told|
  {
    if told == [] then (chunks, merged)
    else AddChunks(chunks + [Chunk(told[0], merged)], merged + |told[0].lines|, told[1..])
  }

  function Next(w: World, s: Step, chunkMaxLines: int): World
    requires Enabled(w, s)
  {
    match s
    case Append(id, entries) => w.(callers := w.callers[id := Pushing(entries, [])])
    case Remainder(id) =>
      if w.buffer == [] then w.(finished := w.finished + {id})
      else w.(callers := w.callers[id := Waiting([], [])], chain := w.chain + [id])
    case Push(id) => PushOne(w, id, chunkMaxLines)
    case Begin => w.(flush := Some(Starting(w.chain[0])), chain := w.chain[1..])
    case Snapshot(found) => TakeSnapshot(w, found)
    case Written(taken) => WritePart(w, taken)
    case Resume(id) =>
      var c := w.callers[id];
      w.(callers := w.callers[id := Pushing(c.rest, Told(c))])
    case Finish(id) =>
      var r := AddChunks(w.chunks, w.mergedSoFar, w.callers[id].told);
      w.(callers := w.callers - {id}, finished := w.finished + {id}, chunks := r.0, mergedSoFar := r.1)
  }

  /** The parts a call knows of: those it was told of and the one it is about to be told of. */
  function Told(c: Caller): seq<Part> {
    if c.Resuming? && c.result.Some? then c.told + [c.result.value] else c.told
  }

  function LinesOf(parts: seq<Part>): (r: seq<seq<LogEntry>>)
    ensures |r| == |parts|
    ensures forall i :: 0 <= i < |r| ==> r[i] == parts[i].lines
  {
    seq(|parts|, i requires 0 <= i < |parts| => parts[i].lines)
  }

  function InFlight(w: World): seq<LogEntry> {
    if w.flush.Some? && w.flush.value.Writing? then w.flush.value.snapshot else []
  }

  // ---------- conservation ----------

  /** What was pushed is, in order, the parts, then the flush under way, then the buffer. */
  ghost predicate Flow(w: World) {
    && w.pushed == Flatten(LinesOf(w.parts)) + InFlight(w) + w.buffer
    && w.writtenThisChunk == |w.buffer|
    && (forall i :: 0 <= i < |w.parts| ==> w.parts[i].lines != [] && w.parts[i].number <= w.currentIndex)
    && (forall i, j :: 0 <= i < j < |w.parts| ==> w.parts[i].number < w.parts[j].number)
    && (w.flush.Some? && w.flush.value.Writing? ==> w.flush.value.snapshot != [])
  }

  lemma FlowWritten(w: World, taken: nat)
    requires Flow(w) && Enabled(w, Written(taken))
    ensures Flow(WritePart(w, taken))
  {
    var v := WritePart(w, taken);
    var part := v.parts[|w.parts|];
    assert LinesOf(v.parts) == LinesOf(w.parts) + [part.lines];
    FlattenSnoc(LinesOf(w.parts), part.lines);
  }

  lemma FlowPushed(w: World, id: Id, chunkMaxLines: int)
    requires Flow(w) && Enabled(w, Push(id))
    ensures Flow(PushOne(w, id, chunkMaxLines))
  {
  }

  lemma FlowSnapshot(w: World, found: nat)
    requires Flow(w) && Enabled(w, Snapshot(found))
    ensures Flow(TakeSnapshot(w, found))
  {
    hide Flatten;
    assert w.pushed == Flatten(LinesOf(w.parts)) + w.buffer + [];
  }

  lemma FlowKept(w: World, s: Step, chunkMaxLines: int)
    requires Flow(w) && Enabled(w, s)
    ensures Flow(Next(w, s, chunkMaxLines))
  {
    hide Flatten, LinesOf;
    match s
    case Written(taken) => FlowWritten(w, taken);
    case Push(id) => FlowPushed(w, id, chunkMaxLines);
    case Snapshot(found) => FlowSnapshot(w, found);
    case Append(_, _) =>
    case Remainder(_) =>
    case Begin =>
    case Resume(_) =>
    case Finish(_) =>
  }

  // ---------- the serial chain ----------

  predicate Queued(w: World, id: Id) {
    id in w.chain || (w.flush.Some? && w.flush.value.caller == id)
  }

  /** A call waits exactly while a flush of its own is in the chain, once, or under way. */
  ghost predicate Chained(w: World) {
    && (forall id :: Queued(w, id) <==> id in w.callers && w.callers[id].Waiting?)
    && (forall i, j :: 0 <= i < j < |w.chain| ==> w.chain[i] != w.chain[j])
    && (w.flush.Some? ==> w.flush.value.caller !in w.chain)
  }

  /** The same calls wait for the same flushes. */
  lemma ChainedSame(w: World, v: World)
    requires Chained(w) && v.chain == w.chain && v.flush == w.flush
    requires forall id :: (id in v.callers && v.callers[id].Waiting?) <==> (id in w.callers && w.callers[id].Waiting?)
    ensures Chained(v)
  {
  }

  lemma ChainedJoin(w: World, v: World, id: Id)
    requires Chained(w) && v.chain == w.chain + [id] && v.flush == w.flush && !Queued(w, id)
    requires id in v.callers && v.callers[id].Waiting?
    requires forall j :: j != id ==> ((j in v.callers && v.callers[j].Waiting?) <==> (j in w.callers && w.callers[j].Waiting?))
    ensures Chained(v)
  {
  }

  lemma ChainedLeave(w: World, v: World)
    requires Chained(w) && w.flush.Some? && v.flush.None? && v.chain == w.chain
    requires forall j :: (j in v.callers && v.callers[j].Waiting?) <==>
                         (j in w.callers && w.callers[j].Waiting? && j != w.flush.value.caller)
    ensures Chained(v)
  {
  }

  lemma ChainedBegin(w: World)
    requires Chained(w) && Enabled(w, Begin)
    ensures Chained(w.(flush := Some(Starting(w.chain[0])), chain := w.chain[1..]))
  {
  }

  lemma ChainedKept(w: World, s: Step, chunkMaxLines: int)
    requires Chained(w) && Enabled(w, s)
    ensures Chained(Next(w, s, chunkMaxLines))
  {
    var v := Next(w, s, chunkMaxLines);
    assert s.Push? || s.Remainder? || s.Append? || s.Resume? || s.Finish? ==> !Queued(w, s.id);
    assert s.Snapshot? || s.Written? ==> Queued(w, w.flush.value.caller);
    hide Chained, Queued;
    if s.Begin? {
      ChainedBegin(w);
    } else if v.chain != w.chain {
      ChainedJoin(w, v, s.id);
    } else if v.flush.None? && w.flush.Some? {
      ChainedLeave(w, v);
    } else if s.Snapshot? {
      ChainedTake(w, v);
    } else {
      ChainedSame(w, v);
    }
  }

  lemma ChainedTake(w: World, v: World)
    requires Chained(w) && v.chain == w.chain && v.callers == w.callers
    requires w.flush.Some? && v.flush.Some? && v.flush.value.caller == w.flush.value.caller
    ensures Chained(v)
  {
  }

  // ---------- reports ----------

  ghost predicate NoRepeats<T>(s: seq<T>) {
    forall i, j :: 0 <= i < j < |s| ==> s[i] != s[j]
  }

  function PartsOf(chunks: seq<Chunk>): (r: seq<Part>)
    ensures |r| == |chunks|
    ensures forall i :: 0 <= i < |r| ==> r[i] == chunks[i].part
  {
    seq(|chunks|, i requires 0 <= i < |chunks| => chunks[i].part)
  }

  ghost predicate Unrepeated(w: World) {
    && NoRepeats(w.parts) && NoRepeats(PartsOf(w.chunks))
    && forall id :: id in w.callers ==> NoRepeats(Told(w.callers[id]))
  }

  /** Only parts are told of or recorded: recorded by a call that has returned, known to the call told. */
  ghost predicate ToldTruly(w: World) {
    && (forall p :: p in w.tellee <==> p in w.parts)
    && (forall id :: id in w.callers ==> id !in w.finished)
    && (forall p :: p in PartsOf(w.chunks) ==> p in w.tellee && w.tellee[p] in w.finished)
    && (forall id, p :: id in w.callers && p in Told(w.callers[id]) ==> p in w.tellee && w.tellee[p] == id)
  }

  ghost predicate NoneForgotten(w: World) {
    forall p :: p in w.tellee ==>
      p in PartsOf(w.chunks) || (w.tellee[p] in w.callers && p in Told(w.callers[w.tellee[p]]))
  }

  /** Each part is in the manifest once, or known to the one call that was told of it, once; never both. */
  ghost predicate Reported(w: World) {
    Unrepeated(w) && ToldTruly(w) && NoneForgotten(w)
  }

  lemma {:induction false} AddChunksParts(chunks: seq<Chunk>, merged: nat, told: seq<Part>)
    ensures PartsOf(AddChunks(chunks, merged, told).0) == PartsOf(chunks) + told
    decreases |told|
  {
    if told != [] {
      AddChunksParts(chunks + [Chunk(told[0], merged)], merged + |told[0].lines|, told[1..]);
      assert PartsOf(chunks + [Chunk(told[0], merged)]) == PartsOf(chunks) + [told[0]];
    } else {
      assert PartsOf(chunks) + told == PartsOf(chunks);
    }
  }

  lemma NoRepeatsAppend<T>(a: seq<T>, b: seq<T>)
    requires NoRepeats(a) && NoRepeats(b) && forall x :: x in a ==> x !in b
    ensures NoRepeats(a + b)
  {
    forall i, j | 0 <= i < j < |a + b|
      ensures (a + b)[i] != (a + b)[j]
    {
      if i < |a| <= j {
        assert a[i] in a && b[j - |a|] in b;
      }
    }
  }

  /** The call `id` returns and its parts go to the manifest. */
  ghost predicate Returned(w: World, v: World, id: Id) {
    && id in w.callers
    && v.parts == w.parts && v.tellee == w.tellee && v.finished == w.finished + {id}
    && PartsOf(v.chunks) == PartsOf(w.chunks) + Told(w.callers[id])
    && v.callers == w.callers - {id}
  }

  lemma FinishRecords(w: World, id: Id, chunkMaxLines: int)
    requires Enabled(w, Finish(id))
    ensures Returned(w, Next(w, Finish(id), chunkMaxLines), id)
  {
    AddChunksParts(w.chunks, w.mergedSoFar, w.callers[id].told);
  }

  lemma ReturnedUnrepeated(w: World, v: World, id: Id)
    requires Reported(w) && Returned(w, v, id)
    ensures Unrepeated(v)
  {
    hide NoRepeats, PartsOf, Told;
    NoRepeatsAppend(PartsOf(w.chunks), Told(w.callers[id]));
  }

  lemma ReturnedTruly(w: World, v: World, id: Id)
    requires ToldTruly(w) && Returned(w, v, id)
    ensures ToldTruly(v)
  {
  }

  lemma ReturnedComplete(w: World, v: World, id: Id)
    requires ToldTruly(w) && NoneForgotten(w) && Returned(w, v, id)
    ensures NoneForgotten(v)
  {
  }

  /** The call `id` is about to be told of a new part. */
  ghost predicate Announced(w: World, v: World, id: Id, part: Part) {
    && id in w.callers && id in v.callers
    && part !in w.parts && v.parts == w.parts + [part]
    && v.tellee == w.tellee[part := id] && v.finished == w.finished && v.chunks == w.chunks
    && v.callers.Keys == w.callers.Keys
    && Told(v.callers[id]) == Told(w.callers[id]) + [part]
    && forall j :: j in w.callers && j != id ==> v.callers[j] == w.callers[j]
  }

  lemma WrittenAnnounces(w: World, taken: nat)
    requires Flow(w) && Chained(w) && Enabled(w, Written(taken))
    ensures var v := WritePart(w, taken); Announced(w, v, w.flush.value.caller, v.parts[|w.parts|])
  {
  }

  lemma AnnouncedUnrepeated(w: World, v: World, id: Id, part: Part)
    requires Unrepeated(w) && ToldTruly(w) && Announced(w, v, id, part)
    ensures Unrepeated(v)
  {
    hide PartsOf, Told;
    NoRepeatsAppend(w.parts, [part]);
    assert part !in Told(w.callers[id]);
    NoRepeatsAppend(Told(w.callers[id]), [part]);
  }

  lemma AnnouncedTruly(w: World, v: World, id: Id, part: Part)
    requires ToldTruly(w) && Announced(w, v, id, part)
    ensures ToldTruly(v)
  {
  }

  lemma AnnouncedComplete(w: World, v: World, id: Id, part: Part)
    requires ToldTruly(w) && NoneForgotten(w) && Announced(w, v, id, part)
    ensures NoneForgotten(v)
  {
  }

  /** Nothing is told, recorded or written. */
  ghost predicate SameReports(w: World, v: World) {
    && v.parts == w.parts && v.chunks == w.chunks && v.tellee == w.tellee && w.finished <= v.finished
    && (forall id :: id in w.callers ==> id in v.callers && Told(v.callers[id]) == Told(w.callers[id]))
    && (forall id :: id in v.callers ==> (id in w.callers || Told(v.callers[id]) == []) && id !in v.finished)
  }

  lemma ReportedSame(w: World, v: World)
    requires Reported(w) && SameReports(w, v)
    ensures Reported(v)
  {
    hide PartsOf, Told;
    assert Unrepeated(v) by {
      assert forall id :: id in v.callers && id !in w.callers ==> NoRepeats(Told(v.callers[id]));
    }
    assert ToldTruly(v) by {
      assert forall id, p :: id in v.callers && p in Told(v.callers[id]) ==> id in w.callers;
    }
  }

  lemma OtherStepsTellNothing(w: World, s: Step, chunkMaxLines: int)
    requires ToldTruly(w) && Chained(w) && Enabled(w, s) && !s.Finish? && !s.Written?
    ensures SameReports(w, Next(w, s, chunkMaxLines))
  {
    hide PartsOf;
    assert s.Snapshot? ==> Queued(w, w.flush.value.caller);
  }

  lemma ReportedKept(w: World, s: Step, chunkMaxLines: int)
    requires Reported(w) && Flow(w) && Chained(w) && Enabled(w, s)
    ensures Reported(Next(w, s, chunkMaxLines))
  {
    hide Unrepeated, ToldTruly, NoneForgotten, Flow, Chained, Returned, Announced, SameReports;
    var v := Next(w, s, chunkMaxLines);
    if s.Finish? {
      FinishRecords(w, s.id, chunkMaxLines);
      ReturnedUnrepeated(w, v, s.id);
      ReturnedTruly(w, v, s.id);
      ReturnedComplete(w, v, s.id);
    } else if s.Written? {
      var id, part := w.flush.value.caller, v.parts[|w.parts|];
      WrittenAnnounces(w, s.taken);
      AnnouncedUnrepeated(w, v, id, part);
      AnnouncedTruly(w, v, id, part);
      AnnouncedComplete(w, v, id, part);
    } else {
      OtherStepsTellNothing(w, s, chunkMaxLines);
      ReportedSame(w, v);
    }
  }

  // ---------- the manifest ----------

  function SumLines(chunks: seq<Chunk>): nat {
    if chunks == [] then 0 else SumLines(chunks[..|chunks| - 1]) + |chunks[|chunks| - 1].part.lines|
  }

  /** The chunks stand end to end from 0 to the merged count. */
  ghost predicate Tiles(w: World) {
    TileTo(w.chunks, w.mergedSoFar)
  }

  ghost predicate TileTo(chunks: seq<Chunk>, merged: nat) {
    && merged == SumLines(chunks)
    && forall i :: 0 <= i < |chunks| ==> chunks[i].start == SumLines(chunks[..i])
  }

  lemma TileOne(chunks: seq<Chunk>, merged: nat, part: Part)
    requires TileTo(chunks, merged)
    ensures TileTo(chunks + [Chunk(part, merged)], merged + |part.lines|)
  {
    var more := chunks + [Chunk(part, merged)];
    assert more[..|chunks|] == chunks;
    forall i | 0 <= i < |more|
      ensures more[i].start == SumLines(more[..i])
    {
      assert i < |chunks| ==> more[..i] == chunks[..i];
    }
  }

  lemma {:induction false} AddChunksTile(chunks: seq<Chunk>, merged: nat, told: seq<Part>)
    requires TileTo(chunks, merged)
    ensures var r := AddChunks(chunks, merged, told); TileTo(r.0, r.1)
    decreases |told|
  {
    hide TileTo;
    if told != [] {
      TileOne(chunks, merged, told[0]);
      AddChunksTile(chunks + [Chunk(told[0], merged)], merged + |told[0].lines|, told[1..]);
    }
  }

  lemma TilesKept(w: World, s: Step, chunkMaxLines: int)
    requires Tiles(w) && Enabled(w, s)
    ensures Tiles(Next(w, s, chunkMaxLines))
  {
    if s.Finish? {
      AddChunksTile(w.chunks, w.mergedSoFar, w.callers[s.id].told);
    }
  }

  // ---------- whole runs ----------

  ghost predicate IsRun(run: seq<World>, steps: seq<Step>, startIndex: nat, chunkMaxLines: int) {
    && |run| == |steps| + 1
    && run[0] == Start(startIndex)
    && forall i :: 0 <= i < |steps| ==> Enabled(run[i], steps[i]) && run[i + 1] == Next(run[i], steps[i], chunkMaxLines)
  }

  lemma StartIsSafe(startIndex: nat)
    ensures var w := Start(startIndex); Flow(w) && Chained(w) && Reported(w) && Tiles(w)
  {
    hide LinesOf, PartsOf;
    assert LinesOf([]) == [];
    assert PartsOf([]) == [];
  }

  /** Whatever the interleaving of the calls: every pushed entry is in exactly one place and in order, part
      numbers rise, every part is told to one call and recorded once, and the chunks tile the merged range. */
  lemma {:induction false} EveryInterleavingIsSafe(run: seq<World>, steps: seq<Step>, startIndex: nat, chunkMaxLines: int, i: int)
    requires IsRun(run, steps, startIndex, chunkMaxLines) && 0 <= i < |run|
    ensures Flow(run[i]) && Chained(run[i]) && Reported(run[i]) && Tiles(run[i])
    decreases i
  {
    hide Flow, Chained, Reported, Tiles, Enabled, Next, Start;
    if i == 0 {
      StartIsSafe(startIndex);
    } else {
      EveryInterleavingIsSafe(run, steps, startIndex, chunkMaxLines, i - 1);
      var w, s := run[i - 1], steps[i - 1];
      FlowKept(w, s, chunkMaxLines);
      ChainedKept(w, s, chunkMaxLines);
      ReportedKept(w, s, chunkMaxLines);
      TilesKept(w, s, chunkMaxLines);
    }
  }

  // ---------- at rest ----------

  /** The entries the manifest lists, in its order. */
  function Recorded(w: World): seq<LogEntry> {
    Flatten(LinesOf(PartsOf(w.chunks)))
  }

  /** Every call has returned. */
  predicate AtRest(w: World) {
    w.callers == map[]
  }

  /** The entries of some parts, without their order. */
  ghost function Pool(parts: seq<Part>): multiset<LogEntry> {
    if parts == [] then multiset{} else multiset(parts[0].lines) + Pool(parts[1..])
  }

  lemma {:induction false} PoolIsFlat(parts: seq<Part>)
    ensures Pool(parts) == multiset(Flatten(LinesOf(parts)))
  {
    if parts == [] {
      assert LinesOf(parts) == [];
    } else {
      PoolIsFlat(parts[1..]);
      assert LinesOf(parts)[1..] == LinesOf(parts[1..]);
    }
  }

  function Without<T>(b: seq<T>, j: int): seq<T>
    requires 0 <= j < |b|
  {
    b[..j] + b[j + 1..]
  }

  lemma {:induction false} PoolWithout(b: seq<Part>, j: int)
    requires 0 <= j < |b|
    ensures Pool(b) == multiset(b[j].lines) + Pool(Without(b, j))
  {
    var rest := Without(b, j);
    if j == 0 {
      assert rest == b[1..];
    } else {
      PoolWithout(b[1..], j - 1);
      assert rest[0] == b[0] && rest[1..] == Without(b[1..], j - 1);
      assert Pool(rest) == multiset(b[0].lines) + Pool(rest[1..]);
    }
  }

  lemma RemoveOne<T>(b: seq<T>, j: int)
    requires NoRepeats(b) && 0 <= j < |b|
    ensures NoRepeats(Without(b, j))
    ensures forall y :: y in Without(b, j) <==> y in b && y != b[j]
  {
  }

  lemma RemoveFirst<T>(a: seq<T>)
    requires NoRepeats(a) && a != []
    ensures NoRepeats(a[1..])
    ensures forall y :: y in a[1..] <==> y in a && y != a[0]
  {
  }

  lemma {:induction false} SameMembersSamePool(a: seq<Part>, b: seq<Part>)
    requires NoRepeats(a) && NoRepeats(b) && forall x :: x in a <==> x in b
    ensures Pool(a) == Pool(b)
    decreases |a|
  {
    if a == [] {
      assert forall x :: x in multiset(b) ==> x in b;
      assert |multiset(b)| == |b|;
    } else {
      assert a[0] in b;
      var j :| 0 <= j < |b| && b[j] == a[0];
      hide NoRepeats, Without;
      RemoveFirst(a);
      RemoveOne(b, j);
      PoolWithout(b, j);
      SameMembersSamePool(a[1..], Without(b, j));
    }
  }

  lemma {:induction false} SumIsLength(chunks: seq<Chunk>)
    ensures SumLines(chunks) == |Flatten(LinesOf(PartsOf(chunks)))|
  {
    if chunks == [] {
      assert LinesOf(PartsOf(chunks)) == [];
    } else {
      var front, c := chunks[..|chunks| - 1], chunks[|chunks| - 1];
      SumIsLength(front);
      assert LinesOf(PartsOf(chunks)) == LinesOf(PartsOf(front)) + [c.part.lines];
      FlattenSnoc(LinesOf(PartsOf(front)), c.part.lines);
    }
  }

  /** When every call has returned, manifest and buffer together hold every pushed entry exactly once. */
  lemma AtRestAccount(run: seq<World>, steps: seq<Step>, startIndex: nat, chunkMaxLines: int, i: int)
    requires IsRun(run, steps, startIndex, chunkMaxLines) && 0 <= i < |run| && AtRest(run[i])
    ensures multiset(Recorded(run[i])) + multiset(run[i].buffer) == multiset(run[i].pushed)
    ensures run[i].mergedSoFar + |run[i].buffer| == |run[i].pushed|
  {
    EveryInterleavingIsSafe(run, steps, startIndex, chunkMaxLines, i);
    var w := run[i];
    AtRestFacts(w);
    SameMembersSamePool(PartsOf(w.chunks), w.parts);
    PoolIsFlat(PartsOf(w.chunks));
    PoolIsFlat(w.parts);
    SumIsLength(w.chunks);
    assert |multiset(Recorded(w))| == |Recorded(w)|;
    assert |multiset(w.pushed)| == |w.pushed| && |multiset(w.buffer)| == |w.buffer|;
  }

  lemma AtRestFacts(w: World)
    requires Flow(w) && Chained(w) && Reported(w) && AtRest(w)
    ensures w.pushed == Flatten(LinesOf(w.parts)) + w.buffer
    ensures forall p :: p in PartsOf(w.chunks) <==> p in w.parts
  {
    if w.flush.Some? {
      assert Queued(w, w.flush.value.caller);
      assert false;
    }
    assert w.pushed == Flatten(LinesOf(w.parts)) + [] + w.buffer;
  }
}
