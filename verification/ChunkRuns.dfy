/** Whole runs of the chunk writer: what the manifest lacks in the end, and in which order it lists the rest. */
module ChunkRuns {
  import opened Prelude
  import opened Entries
  import opened ChunkProtocol
  import Sorting

  // ---------- nothing lost ----------

  /** Some snapshot between the two steps. */
  predicate SnapshotBetween(steps: seq<Step>, j: int, i: int)
    requires 0 <= j && i <= |steps|
  {
    exists k :: j < k < i && steps[k].Snapshot?
  }

  /** Of the first `i` steps every push is followed by a snapshot. */
  predicate EveryPushIsTaken(steps: seq<Step>, i: int)
    requires 0 <= i <= |steps|
  {
    forall j :: 0 <= j < i && steps[j].Push? ==> SnapshotBetween(steps, j, i)
  }

  lemma TakenStep(steps: seq<Step>, i: int)
    requires 0 < i <= |steps|
    ensures EveryPushIsTaken(steps, i) <==>
            steps[i - 1].Snapshot? || (!steps[i - 1].Push? && EveryPushIsTaken(steps, i - 1))
  {
    if EveryPushIsTaken(steps, i) && !steps[i - 1].Snapshot? {
      assert !SnapshotBetween(steps, i - 1, i);
      forall j | 0 <= j < i - 1 && steps[j].Push?
        ensures SnapshotBetween(steps, j, i - 1)
      {
        assert SnapshotBetween(steps, j, i);
      }
    }
    if !steps[i - 1].Push? && EveryPushIsTaken(steps, i - 1) {
      forall j | 0 <= j < i && steps[j].Push?
        ensures SnapshotBetween(steps, j, i)
      {
        assert SnapshotBetween(steps, j, i - 1);
      }
    }
  }

  lemma BufferStep(w: World, s: Step, chunkMaxLines: int)
    requires Enabled(w, s)
    ensures Next(w, s, chunkMaxLines).buffer == [] <==> s.Snapshot? || (!s.Push? && w.buffer == [])
  {
  }

  /** At every moment the buffer is empty if and only if every push so far is followed by a snapshot. */
  lemma {:induction false} BufferIsEmpty(run: seq<World>, steps: seq<Step>, startIndex: nat, chunkMaxLines: int, i: int)
    requires IsRun(run, steps, startIndex, chunkMaxLines) && 0 <= i < |run|
    ensures run[i].buffer == [] <==> EveryPushIsTaken(steps, i)
    decreases i
  {
    hide Next, Enabled;
    if i > 0 {
      hide EveryPushIsTaken;
      BufferIsEmpty(run, steps, startIndex, chunkMaxLines, i - 1);
      BufferStep(run[i - 1], steps[i - 1], chunkMaxLines);
      TakenStep(steps, i);
    }
  }

  /** When every call has returned, the manifest holds every pushed entry exactly once if and only if every push
      of the run is followed by a snapshot. */
  lemma AtRestNothingIsLost(run: seq<World>, steps: seq<Step>, startIndex: nat, chunkMaxLines: int, i: int)
    requires IsRun(run, steps, startIndex, chunkMaxLines) && 0 <= i < |run| && AtRest(run[i])
    ensures multiset(Recorded(run[i])) == multiset(run[i].pushed) <==> EveryPushIsTaken(steps, i)
  {
    hide IsRun, EveryPushIsTaken, Recorded;
    AtRestAccount(run, steps, startIndex, chunkMaxLines, i);
    BufferIsEmpty(run, steps, startIndex, chunkMaxLines, i);
    assert |multiset(run[i].buffer)| == |run[i].buffer|;
  }

  // ---------- when to ask for the remainder ----------

  /** No call in progress has entries left to push. */
  predicate AllPushed(w: World) {
    forall id :: id in w.callers ==> w.callers[id].rest == []
  }

  /** The buffer is empty, or the call `id` waits for a flush that has yet to take it. */
  ghost predicate WillBeTaken(w: World, id: Id) {
    w.buffer == [] || (id in w.callers && w.callers[id].Waiting? && (id in w.chain || w.flush == Some(Starting(id))))
  }

  lemma RemainderTakes(w: World, id: Id, chunkMaxLines: int)
    requires AllPushed(w) && Enabled(w, Remainder(id))
    ensures var v := Next(w, Remainder(id), chunkMaxLines); AllPushed(v) && WillBeTaken(v, id)
  {
  }

  lemma NothingMorePushed(w: World, s: Step, id: Id, chunkMaxLines: int)
    requires Chained(w) && AllPushed(w) && WillBeTaken(w, id) && Enabled(w, s) && !s.Append?
    ensures var v := Next(w, s, chunkMaxLines); AllPushed(v) && WillBeTaken(v, id)
  {
  }

  lemma {:induction false} RemainderCovers(run: seq<World>, steps: seq<Step>, startIndex: nat, chunkMaxLines: int, r: int, i: int)
    requires IsRun(run, steps, startIndex, chunkMaxLines) && 0 <= r < i < |run|
    requires steps[r].Remainder? && AllPushed(run[r]) && forall k :: r < k < i ==> !steps[k].Append?
    ensures AllPushed(run[i]) && WillBeTaken(run[i], steps[r].id)
    decreases i
  {
    hide Next, Enabled, AllPushed, WillBeTaken;
    if i == r + 1 {
      RemainderTakes(run[r], steps[r].id, chunkMaxLines);
    } else {
      RemainderCovers(run, steps, startIndex, chunkMaxLines, r, i - 1);
      EveryInterleavingIsSafe(run, steps, startIndex, chunkMaxLines, i - 1);
      NothingMorePushed(run[i - 1], steps[i - 1], steps[r].id, chunkMaxLines);
    }
  }

  /** A remainder asked for once every entry is pushed, with no append after it: as soon as all calls have
      returned, the manifest holds every appended entry exactly once. */
  lemma RemainderLeavesNothing(run: seq<World>, steps: seq<Step>, startIndex: nat, chunkMaxLines: int, r: int, i: int)
    requires IsRun(run, steps, startIndex, chunkMaxLines) && 0 <= r < i < |run| && AtRest(run[i])
    requires steps[r].Remainder? && AllPushed(run[r]) && forall k :: r < k < i ==> !steps[k].Append?
    ensures run[i].buffer == [] && run[i].mergedSoFar == |run[i].pushed|
    ensures multiset(Recorded(run[i])) == multiset(run[i].pushed) == multiset(Appended(steps, i))
  {
    PushedIsAppended(run, steps, startIndex, chunkMaxLines, i);
    hide IsRun, Recorded;
    RemainderCovers(run, steps, startIndex, chunkMaxLines, r, i);
    AtRestAccount(run, steps, startIndex, chunkMaxLines, i);
  }

  // ---------- from what is appended to what is pushed ----------

  /** What the appends of the first `i` steps were given, one after the other. */
  function Appended(steps: seq<Step>, i: int): seq<LogEntry>
    requires 0 <= i <= |steps|
  {
    if i == 0 then []
    else Appended(steps, i - 1) + if steps[i - 1].Append? then steps[i - 1].entries else []
  }

  /** The calls that appended in the first `i` steps. */
  function Appenders(steps: seq<Step>, i: int): seq<Id>
    requires 0 <= i <= |steps|
  {
    if i == 0 then []
    else Appenders(steps, i - 1) + if steps[i - 1].Append? then [steps[i - 1].id] else []
  }

  function RestOf(w: World, id: Id): seq<LogEntry> {
    if id in w.callers then w.callers[id].rest else []
  }

  ghost function Unpushed(w: World, ids: seq<Id>): multiset<LogEntry> {
    if ids == [] then multiset{} else Unpushed(w, ids[..|ids| - 1]) + multiset(RestOf(w, ids[|ids| - 1]))
  }

  ghost predicate Conserved(w: World, ids: seq<Id>, given: seq<LogEntry>) {
    && NoRepeats(ids)
    && (forall id :: id in ids ==> id in w.callers || id in w.finished)
    && (forall id :: id in w.callers && w.callers[id].rest != [] ==> id in ids)
    && multiset(w.pushed) + Unpushed(w, ids) == multiset(given)
  }

  lemma {:induction false} UnpushedSame(w: World, v: World, ids: seq<Id>)
    requires forall id :: id in ids ==> RestOf(v, id) == RestOf(w, id)
    ensures Unpushed(v, ids) == Unpushed(w, ids)
  {
    hide RestOf;
    if ids != [] {
      UnpushedSame(w, v, ids[..|ids| - 1]);
    }
  }

  lemma {:induction false} UnpushedLess(w: World, v: World, ids: seq<Id>, id: Id)
    requires NoRepeats(ids) && id in ids && RestOf(w, id) != [] && RestOf(v, id) == RestOf(w, id)[1..]
    requires forall j :: j in ids && j != id ==> RestOf(v, j) == RestOf(w, j)
    ensures Unpushed(w, ids) == Unpushed(v, ids) + multiset{RestOf(w, id)[0]}
  {
    hide RestOf;
    var front, last := ids[..|ids| - 1], ids[|ids| - 1];
    if last == id {
      assert forall j :: j in front ==> j != id;
      UnpushedSame(w, v, front);
      assert RestOf(w, id) == [RestOf(w, id)[0]] + RestOf(v, id);
    } else {
      UnpushedLess(w, v, front, id);
    }
  }

  /** Calls begin and end, but are not forgotten; a new one has entries left only if it appends. */
  lemma CallsStep(w: World, s: Step, chunkMaxLines: int)
    requires Chained(w) && Enabled(w, s)
    ensures var v := Next(w, s, chunkMaxLines);
            && (forall id :: id in w.callers || id in w.finished ==> id in v.callers || id in v.finished)
            && (s.Append? ==> s.id in v.callers)
            && forall id :: id in v.callers && v.callers[id].rest != [] ==>
                 (id in w.callers && w.callers[id].rest != []) || (s.Append? && id == s.id)
  {
  }

  lemma RestStep(w: World, s: Step, chunkMaxLines: int, id: Id)
    requires Chained(w) && Enabled(w, s)
    ensures var v := Next(w, s, chunkMaxLines);
            if s.Push? && id == s.id then RestOf(w, id) != [] && RestOf(v, id) == RestOf(w, id)[1..]
            else if s.Append? && id == s.id then RestOf(v, id) == s.entries
            else RestOf(v, id) == RestOf(w, id)
  {
  }

  lemma PushedStep(w: World, s: Step, chunkMaxLines: int)
    requires Enabled(w, s)
    ensures Next(w, s, chunkMaxLines).pushed == w.pushed + if s.Push? then [RestOf(w, s.id)[0]] else []
  {
  }

  /** None of the calls `ids` is forgotten, and only they may still have entries. */
  ghost predicate CallsKept(v: World, ids: seq<Id>) {
    && (forall id :: id in ids ==> id in v.callers || id in v.finished)
    && (forall id :: id in v.callers && v.callers[id].rest != [] ==> id in ids)
  }

  lemma ConservedPush(w: World, v: World, ids: seq<Id>, given: seq<LogEntry>, id: Id)
    requires Conserved(w, ids, given) && CallsKept(v, ids) && id in ids
    requires RestOf(w, id) != [] && RestOf(v, id) == RestOf(w, id)[1..] && v.pushed == w.pushed + [RestOf(w, id)[0]]
    requires forall j :: j in ids && j != id ==> RestOf(v, j) == RestOf(w, j)
    ensures Conserved(v, ids, given)
  {
    hide RestOf, NoRepeats;
    UnpushedLess(w, v, ids, id);
  }

  lemma ConservedSame(w: World, v: World, ids: seq<Id>, given: seq<LogEntry>)
    requires Conserved(w, ids, given) && CallsKept(v, ids) && v.pushed == w.pushed
    requires forall j :: j in ids ==> RestOf(v, j) == RestOf(w, j)
    ensures Conserved(v, ids, given)
  {
    hide RestOf, NoRepeats;
    UnpushedSame(w, v, ids);
  }

  lemma ConservedAppend(w: World, v: World, ids: seq<Id>, given: seq<LogEntry>, id: Id, entries: seq<LogEntry>)
    requires Conserved(w, ids, given) && CallsKept(v, ids + [id]) && id !in ids && v.pushed == w.pushed
    requires RestOf(v, id) == entries && forall j :: j in ids ==> RestOf(v, j) == RestOf(w, j)
    ensures Conserved(v, ids + [id], given + entries)
  {
    hide RestOf, NoRepeats;
    UnpushedSame(w, v, ids);
    assert (ids + [id])[..|ids|] == ids;
    OneRepeatsNot(id);
    NoRepeatsAppend(ids, [id]);
  }

  lemma ConservedStep(w: World, s: Step, chunkMaxLines: int, ids: seq<Id>, given: seq<LogEntry>)
    requires Conserved(w, ids, given) && Chained(w) && Enabled(w, s)
    ensures var ids', given' := ids + (if s.Append? then [s.id] else []), given + if s.Append? then s.entries else [];
            Conserved(Next(w, s, chunkMaxLines), ids', given')
  {
    assert s.Append? ==> s.id !in ids;
    assert s.Push? ==> s.id in ids;
    hide Next, Chained, NoRepeats, Unpushed;
    var v := Next(w, s, chunkMaxLines);
    CallsStep(w, s, chunkMaxLines);
    PushedStep(w, s, chunkMaxLines);
    forall id: Id
      ensures if s.Push? && id == s.id then RestOf(w, id) != [] && RestOf(v, id) == RestOf(w, id)[1..]
              else if s.Append? && id == s.id then RestOf(v, id) == s.entries
              else RestOf(v, id) == RestOf(w, id)
    {
      RestStep(w, s, chunkMaxLines, id);
    }
    assert CallsKept(v, ids + if s.Append? then [s.id] else []);
    hide RestOf, Enabled, Conserved, CallsKept;
    assert ids + [] == ids && given + [] == given;
    if s.Push? {
      ConservedPush(w, v, ids, given, s.id);
    } else if s.Append? {
      ConservedAppend(w, v, ids, given, s.id, s.entries);
    } else {
      assert w.pushed + [] == w.pushed;
      ConservedSame(w, v, ids, given);
    }
  }

  lemma OneRepeatsNot(id: Id)
    ensures NoRepeats([id])
  {
  }

  lemma {:induction false} AlwaysConserved(run: seq<World>, steps: seq<Step>, startIndex: nat, chunkMaxLines: int, i: int)
    requires IsRun(run, steps, startIndex, chunkMaxLines) && 0 <= i < |run|
    ensures Conserved(run[i], Appenders(steps, i), Appended(steps, i))
    decreases i
  {
    hide Next, Enabled, Flow, Reported, Tiles, Chained;
    if i > 0 {
      hide Conserved;
      AlwaysConserved(run, steps, startIndex, chunkMaxLines, i - 1);
      EveryInterleavingIsSafe(run, steps, startIndex, chunkMaxLines, i - 1);
      ConservedStep(run[i - 1], steps[i - 1], chunkMaxLines, Appenders(steps, i - 1), Appended(steps, i - 1));
    }
  }

  lemma {:induction false} NoneUnpushed(w: World, ids: seq<Id>)
    requires AllPushed(w)
    ensures Unpushed(w, ids) == multiset{}
  {
    if ids != [] {
      NoneUnpushed(w, ids[..|ids| - 1]);
    }
  }

  /** Whenever no call has entries left, what is pushed is what was appended, in some order. */
  lemma PushedIsAppended(run: seq<World>, steps: seq<Step>, startIndex: nat, chunkMaxLines: int, i: int)
    requires IsRun(run, steps, startIndex, chunkMaxLines) && 0 <= i < |run| && AllPushed(run[i])
    ensures multiset(run[i].pushed) == multiset(Appended(steps, i))
  {
    AlwaysConserved(run, steps, startIndex, chunkMaxLines, i);
    NoneUnpushed(run[i], Appenders(steps, i));
  }

  // ---------- calls made in turn ----------

  /** Every call so far began when all before it had returned. */
  ghost predicate InTurn(run: seq<World>, steps: seq<Step>, i: int)
    requires 0 <= i <= |steps| < |run|
  {
    forall k :: 0 <= k < i && (steps[k].Append? || steps[k].Remainder?) ==> AtRest(run[k])
  }

  /** The one call in progress knows of the parts not yet recorded and has the entries not yet pushed. */
  ghost predicate OnlyCall(w: World, given: seq<LogEntry>, id: Id) {
    && w.callers.Keys == {id}
    && w.parts == PartsOf(w.chunks) + Told(w.callers[id])
    && w.pushed + w.callers[id].rest == given
  }

  ghost predicate InOrder(w: World, given: seq<LogEntry>) {
    || (AtRest(w) && w.parts == PartsOf(w.chunks) && w.pushed == given)
    || exists id :: OnlyCall(w, given, id)
  }

  lemma CallBegins(w: World, given: seq<LogEntry>, s: Step, chunkMaxLines: int)
    requires InOrder(w, given) && AtRest(w) && Enabled(w, s) && (s.Append? || s.Remainder?)
    ensures InOrder(Next(w, s, chunkMaxLines), given + if s.Append? then s.entries else [])
  {
    var v := Next(w, s, chunkMaxLines);
    assert w.pushed == given && w.parts == PartsOf(w.chunks);
    assert given + [] == given && PartsOf(w.chunks) + [] == PartsOf(w.chunks);
    if v.callers != map[] {
      assert OnlyCall(v, given + if s.Append? then s.entries else [], s.id);
    }
  }

  lemma CallGoesOn(w: World, given: seq<LogEntry>, id: Id, s: Step, chunkMaxLines: int)
    requires OnlyCall(w, given, id) && Chained(w) && Enabled(w, s) && !s.Append? && !s.Remainder?
    ensures InOrder(Next(w, s, chunkMaxLines), given)
  {
    var v := Next(w, s, chunkMaxLines);
    if s.Finish? {
      AddChunksParts(w.chunks, w.mergedSoFar, w.callers[id].told);
      assert v.callers.Keys == {};
      assert w.pushed + [] == w.pushed;
    } else {
      assert s.Snapshot? || s.Written? ==> Queued(w, w.flush.value.caller);
      assert OnlyCall(v, given, id);
    }
  }

  lemma {:induction false} TurnsKeepOrder(run: seq<World>, steps: seq<Step>, startIndex: nat, chunkMaxLines: int, i: int)
    requires IsRun(run, steps, startIndex, chunkMaxLines) && 0 <= i < |run| && InTurn(run, steps, i)
    ensures InOrder(run[i], Appended(steps, i))
    decreases i
  {
    if i == 0 {
      assert PartsOf([]) == [];
    } else {
      hide Next, Enabled, Chained;
      TurnsKeepOrder(run, steps, startIndex, chunkMaxLines, i - 1);
      EveryInterleavingIsSafe(run, steps, startIndex, chunkMaxLines, i - 1);
      var w, s, given := run[i - 1], steps[i - 1], Appended(steps, i - 1);
      if s.Append? || s.Remainder? {
        CallBegins(w, given, s, chunkMaxLines);
      } else {
        NeedsACall(w, s);
        var id :| OnlyCall(w, given, id);
        CallGoesOn(w, given, id, s, chunkMaxLines);
        assert given + [] == given;
      }
    }
  }

  lemma NeedsACall(w: World, s: Step)
    requires Chained(w) && Enabled(w, s) && !s.Append? && !s.Remainder?
    ensures !AtRest(w)
  {
    assert s.Begin? ==> Queued(w, w.chain[0]);
    assert s.Snapshot? ==> Queued(w, w.flush.value.caller);
  }

  /** Calls made in turn, all returned: the manifest and then the buffer hold what was appended, in order. */
  lemma InTurnInOrder(run: seq<World>, steps: seq<Step>, startIndex: nat, chunkMaxLines: int, i: int)
    requires IsRun(run, steps, startIndex, chunkMaxLines) && 0 <= i < |run| && InTurn(run, steps, i) && AtRest(run[i])
    ensures Recorded(run[i]) + run[i].buffer == run[i].pushed == Appended(steps, i)
  {
    hide IsRun, Flow, Chained, Reported, Tiles;
    TurnsKeepOrder(run, steps, startIndex, chunkMaxLines, i);
    EveryInterleavingIsSafe(run, steps, startIndex, chunkMaxLines, i);
    AtRestFacts(run[i]);
  }

  // ---------- the order of the manifest ----------

  /** The calls that returned in the first `i` steps, in that order. */
  function ReturnOrder(steps: seq<Step>, i: int): seq<Id>
    requires 0 <= i <= |steps|
  {
    if i == 0 then []
    else ReturnOrder(steps, i - 1) + if steps[i - 1].Finish? then [steps[i - 1].id] else []
  }

  /** The call a part was told to. */
  function TellOf(tellee: map<Part, Id>): Part -> int {
    (p: Part) => if p in tellee then tellee[p] as int else -1
  }

  function PlaceIn(order: seq<Id>, id: int): (n: nat)
    ensures n <= |order| && (n < |order| ==> order[n] == id)
    ensures n == |order| ==> forall i :: 0 <= i < |order| ==> order[i] != id
  {
    if order == [] then 0 else if order[0] == id then 0 else 1 + PlaceIn(order[1..], id)
  }

  /** Falls with the place at which the part's call returned. */
  function ReturnKey(order: seq<Id>, tellee: map<Part, Id>): Part -> int {
    (p: Part) => -(PlaceIn(order, TellOf(tellee)(p)) as int)
  }

  lemma {:induction false} WithKeyMatch<T>(s: seq<T>, f: T -> int, a: int, g: T -> int, b: int)
    requires forall x :: x in s ==> (f(x) == a <==> g(x) == b)
    ensures Sorting.WithKey(s, f, a) == Sorting.WithKey(s, g, b)
  {
    if s != [] {
      WithKeyMatch(s[1..], f, a, g, b);
    }
  }

  lemma {:induction false} WithKeyAppend<T>(s: seq<T>, t: seq<T>, f: T -> int, a: int)
    ensures Sorting.WithKey(s + t, f, a) == Sorting.WithKey(s, f, a) + Sorting.WithKey(t, f, a)
  {
    if s == [] {
      assert s + t == t;
    } else {
      assert (s + t)[0] == s[0] && (s + t)[1..] == s[1..] + t;
      WithKeyAppend(s[1..], t, f, a);
      var head := if f(s[0]) == a then [s[0]] else [];
      assert Sorting.WithKey(s, f, a) == head + Sorting.WithKey(s[1..], f, a);
      assert Sorting.WithKey(s + t, f, a) == head + Sorting.WithKey((s + t)[1..], f, a);
    }
  }

  lemma {:induction false} WithKeyAll<T>(s: seq<T>, f: T -> int, a: int)
    ensures (forall x :: x in s ==> f(x) == a) ==> Sorting.WithKey(s, f, a) == s
    ensures (forall x :: x in s ==> f(x) != a) ==> Sorting.WithKey(s, f, a) == []
  {
    if s != [] {
      WithKeyAll(s[1..], f, a);
    }
  }

  /** The calls in `order` have returned, and the chunks are theirs, call by call. */
  ghost predicate Listed(w: World, order: seq<Id>) {
    && NoRepeats(order)
    && (forall id :: id in order ==> id in w.finished)
    && (forall p :: p in PartsOf(w.chunks) ==> p in w.tellee && w.tellee[p] in order)
    && ByReturn(PartsOf(w.chunks), order, w.tellee)
  }

  ghost predicate ByReturn(parts: seq<Part>, order: seq<Id>, tellee: map<Part, Id>) {
    Sorting.Falling(parts, ReturnKey(order, tellee))
  }

  /** Each call knows the parts it was told of in the order of writing, and so does the manifest. */
  ghost predicate InWritingOrder(w: World, order: seq<Id>) {
    && (forall id :: id in w.callers ==> Told(w.callers[id]) == Sorting.WithKey(w.parts, TellOf(w.tellee), id))
    && (forall id :: id in order ==>
          Sorting.WithKey(PartsOf(w.chunks), TellOf(w.tellee), id) == Sorting.WithKey(w.parts, TellOf(w.tellee), id))
  }

  // A part is written.

  lemma WrittenKeepsLists(parts: seq<Part>, tellee: map<Part, Id>, part: Part, id: Id, k: Id)
    requires part !in parts
    ensures Sorting.WithKey(parts, TellOf(tellee[part := id]), k) == Sorting.WithKey(parts, TellOf(tellee), k)
  {
    WithKeyMatch(parts, TellOf(tellee[part := id]), k, TellOf(tellee), k);
  }

  lemma WrittenAdds(parts: seq<Part>, tellee: map<Part, Id>, part: Part, id: Id, k: Id)
    requires part !in parts
    ensures Sorting.WithKey(parts + [part], TellOf(tellee[part := id]), k)
            == Sorting.WithKey(parts, TellOf(tellee), k) + if k == id then [part] else []
  {
    var f := TellOf(tellee[part := id]);
    WithKeyAppend(parts, [part], f, k);
    WithKeyAll([part], f, k);
    WrittenKeepsLists(parts, tellee, part, id, k);
  }

  lemma AnnouncedOrder(w: World, v: World, id: Id, part: Part, order: seq<Id>)
    requires ToldTruly(w) && Announced(w, v, id, part) && Listed(w, order) && InWritingOrder(w, order)
    ensures Listed(v, order) && InWritingOrder(v, order)
  {
    hide Told, PartsOf, Sorting.WithKey, TellOf, NoRepeats;
    assert part !in PartsOf(w.chunks);
    assert id !in order;
    AnnouncedKeepsReturns(PartsOf(w.chunks), order, w.tellee, part, id);
    forall k | k in v.callers
      ensures Told(v.callers[k]) == Sorting.WithKey(v.parts, TellOf(v.tellee), k)
    {
      WrittenAdds(w.parts, w.tellee, part, id, k);
      assert Sorting.WithKey(w.parts, TellOf(w.tellee), k) + [] == Sorting.WithKey(w.parts, TellOf(w.tellee), k);
    }
    forall k | k in order
      ensures Sorting.WithKey(PartsOf(v.chunks), TellOf(v.tellee), k) == Sorting.WithKey(v.parts, TellOf(v.tellee), k)
    {
      WrittenAdds(w.parts, w.tellee, part, id, k);
      WrittenKeepsLists(PartsOf(w.chunks), w.tellee, part, id, k);
      assert Sorting.WithKey(w.parts, TellOf(w.tellee), k) + [] == Sorting.WithKey(w.parts, TellOf(w.tellee), k);
    }
  }

  lemma AnnouncedKeepsReturns(parts: seq<Part>, order: seq<Id>, tellee: map<Part, Id>, part: Part, id: Id)
    requires ByReturn(parts, order, tellee) && part !in parts
    ensures ByReturn(parts, order, tellee[part := id])
  {
    forall p | p in parts
      ensures ReturnKey(order, tellee[part := id])(p) == ReturnKey(order, tellee)(p)
    {
      assert TellOf(tellee[part := id])(p) == TellOf(tellee)(p);
    }
  }

  // A call returns.

  lemma {:induction false} PlaceGrows(order: seq<Id>, id: Id, k: int)
    ensures PlaceIn(order + [id], k) == if k in order then PlaceIn(order, k) else if k == id then |order| else |order| + 1
  {
    if order != [] {
      assert (order + [id])[1..] == order[1..] + [id];
      PlaceGrows(order[1..], id, k);
    }
  }

  lemma ReturnAppends(parts: seq<Part>, told: seq<Part>, order: seq<Id>, id: Id, tellee: map<Part, Id>)
    requires ByReturn(parts, order, tellee) && forall p :: p in parts ==> p in tellee && tellee[p] in order
    requires id !in order && forall p :: p in told ==> p in tellee && tellee[p] == id
    ensures ByReturn(parts + told, order + [id], tellee)
  {
    var key, wider := ReturnKey(order, tellee), ReturnKey(order + [id], tellee);
    forall p | p in parts
      ensures wider(p) == key(p) && key(p) > -|order|
    {
      PlaceGrows(order, id, tellee[p]);
      assert TellOf(tellee)(p) == tellee[p];
    }
    forall p | p in told
      ensures wider(p) == -|order|
    {
      PlaceGrows(order, id, id);
      assert TellOf(tellee)(p) == id;
    }
    forall i, j | 0 <= i < j < |parts + told|
      ensures wider((parts + told)[i]) >= wider((parts + told)[j])
    {
      assert (parts + told)[i] in parts || (parts + told)[i] in told;
      assert (parts + told)[j] in parts || (parts + told)[j] in told;
      assert i < |parts| && j < |parts| ==> key(parts[i]) >= key(parts[j]);
    }
  }

  lemma ReturnKeepsLists(parts: seq<Part>, told: seq<Part>, id: Id, k: Id, tellee: map<Part, Id>)
    requires (forall p :: p in parts ==> p in tellee && tellee[p] != id) && forall p :: p in told ==> p in tellee && tellee[p] == id
    ensures Sorting.WithKey(parts + told, TellOf(tellee), k) == if k == id then told else Sorting.WithKey(parts, TellOf(tellee), k)
  {
    WithKeyAppend(parts, told, TellOf(tellee), k);
    WithKeyAll(told, TellOf(tellee), k);
    WithKeyAll(parts, TellOf(tellee), id);
    assert [] + told == told && Sorting.WithKey(parts, TellOf(tellee), k) + [] == Sorting.WithKey(parts, TellOf(tellee), k);
  }

  lemma ReturnedOrder(w: World, v: World, id: Id, order: seq<Id>)
    requires ToldTruly(w) && Returned(w, v, id) && Listed(w, order) && InWritingOrder(w, order)
    ensures Listed(v, order + [id]) && InWritingOrder(v, order + [id])
  {
    hide Told, PartsOf, Sorting.WithKey, TellOf, ByReturn;
    var told := Told(w.callers[id]);
    assert id !in order;
    ReturnAppends(PartsOf(w.chunks), told, order, id, w.tellee);
    NoRepeatsAppend(order, [id]);
    forall k | k in order + [id]
      ensures Sorting.WithKey(PartsOf(v.chunks), TellOf(v.tellee), k) == Sorting.WithKey(v.parts, TellOf(v.tellee), k)
    {
      ReturnKeepsLists(PartsOf(w.chunks), told, id, k, w.tellee);
    }
  }

  // Nothing is told or recorded.

  lemma SameOrder(w: World, v: World, order: seq<Id>)
    requires Reported(w) && SameReports(w, v) && Listed(w, order) && InWritingOrder(w, order)
    requires forall id :: id in v.callers && id !in w.callers ==> id !in w.finished
    ensures Listed(v, order) && InWritingOrder(v, order)
  {
    hide PartsOf, Sorting.WithKey, TellOf, ByReturn, NoRepeats, Unrepeated;
    forall id | id in v.callers && id !in w.callers
      ensures Sorting.WithKey(w.parts, TellOf(w.tellee), id) == []
    {
      NoneTold(w, id);
    }
  }

  lemma NoneTold(w: World, id: Id)
    requires ToldTruly(w) && NoneForgotten(w) && id !in w.callers && id !in w.finished
    ensures Sorting.WithKey(w.parts, TellOf(w.tellee), id) == []
  {
    WithKeyAll(w.parts, TellOf(w.tellee), id);
  }

  lemma OrderStep(w: World, s: Step, chunkMaxLines: int, order: seq<Id>)
    requires Flow(w) && Chained(w) && Reported(w) && Enabled(w, s) && Listed(w, order) && InWritingOrder(w, order)
    ensures var now := order + if s.Finish? then [s.id] else [];
            Listed(Next(w, s, chunkMaxLines), now) && InWritingOrder(Next(w, s, chunkMaxLines), now)
  {
    hide Flow, Chained, Unrepeated, ToldTruly, NoneForgotten, Listed, InWritingOrder, Announced, Returned, SameReports;
    var v := Next(w, s, chunkMaxLines);
    assert order + [] == order;
    if s.Finish? {
      FinishRecords(w, s.id, chunkMaxLines);
      ReturnedOrder(w, v, s.id, order);
    } else if s.Written? {
      WrittenAnnounces(w, s.taken);
      AnnouncedOrder(w, v, w.flush.value.caller, v.parts[|w.parts|], order);
    } else {
      OtherStepsTellNothing(w, s, chunkMaxLines);
      NewCallsAreNew(w, s, chunkMaxLines);
      SameOrder(w, v, order);
    }
  }

  lemma NewCallsAreNew(w: World, s: Step, chunkMaxLines: int)
    requires Enabled(w, s)
    ensures forall id :: id in Next(w, s, chunkMaxLines).callers && id !in w.callers ==> id !in w.finished
  {
  }

  lemma {:induction false} OrderKept(run: seq<World>, steps: seq<Step>, startIndex: nat, chunkMaxLines: int, i: int)
    requires IsRun(run, steps, startIndex, chunkMaxLines) && 0 <= i < |run|
    ensures Listed(run[i], ReturnOrder(steps, i)) && InWritingOrder(run[i], ReturnOrder(steps, i))
    decreases i
  {
    hide Next, Enabled, Flow, Chained, Reported, Tiles;
    if i == 0 {
      assert PartsOf([]) == [];
    } else {
      hide Listed, InWritingOrder;
      OrderKept(run, steps, startIndex, chunkMaxLines, i - 1);
      EveryInterleavingIsSafe(run, steps, startIndex, chunkMaxLines, i - 1);
      OrderStep(run[i - 1], steps[i - 1], chunkMaxLines, ReturnOrder(steps, i - 1));
    }
  }

  lemma SameUnderReturn(w: World, order: seq<Id>, k: int)
    requires Listed(w, order) && InWritingOrder(w, order)
    requires forall p :: p in w.parts ==> p in w.tellee && w.tellee[p] in order
    ensures var key := ReturnKey(order, w.tellee);
            Sorting.WithKey(PartsOf(w.chunks), key, k) == Sorting.WithKey(w.parts, key, k)
  {
    hide Sorting.WithKey, ByReturn, PlaceIn;
    var key, tell := ReturnKey(order, w.tellee), TellOf(w.tellee);
    if -|order| < k <= 0 {
      var id := order[-k];
      forall p | p in w.parts || p in PartsOf(w.chunks)
        ensures key(p) == k <==> tell(p) == id
      {
        assert order[PlaceIn(order, tell(p))] == tell(p);
      }
      WithKeyMatch(w.parts, key, k, tell, id);
      WithKeyMatch(PartsOf(w.chunks), key, k, tell, id);
    } else {
      WithKeyAll(w.parts, key, k);
      WithKeyAll(PartsOf(w.chunks), key, k);
    }
  }

  lemma SortedByReturn(w: World, order: seq<Id>)
    requires Listed(w, order) && InWritingOrder(w, order) && forall p :: p in w.parts ==> p in w.tellee && w.tellee[p] in order
    ensures var key := ReturnKey(order, w.tellee);
            && Sorting.IsStableSort(w.parts, PartsOf(w.chunks), key)
            && (PartsOf(w.chunks) == w.parts <==> Sorting.Falling(w.parts, key))
  {
    hide Sorting.WithKey, Sorting.Falling, ReturnKey, InWritingOrder, NoRepeats;
    var key := ReturnKey(order, w.tellee);
    forall k
      ensures Sorting.WithKey(PartsOf(w.chunks), key, k) == Sorting.WithKey(w.parts, key, k)
    {
      SameUnderReturn(w, order, k);
    }
    if Sorting.Falling(w.parts, key) {
      Sorting.SortOfFalling(w.parts, PartsOf(w.chunks), key);
    }
  }

  lemma AllReturned(w: World, order: seq<Id>)
    requires ToldTruly(w) && NoneForgotten(w) && AtRest(w) && Listed(w, order)
    ensures forall p :: p in w.parts ==> p in w.tellee && w.tellee[p] in order
  {
  }

  /** When every call has returned, the manifest lists the parts as a stable sort of the order of writing by the
      order in which the calls told of them returned. So it is the order of writing if and only if no call told
      of an earlier part returned after one told of a later part. */
  lemma ManifestOrder(run: seq<World>, steps: seq<Step>, startIndex: nat, chunkMaxLines: int, i: int)
    requires IsRun(run, steps, startIndex, chunkMaxLines) && 0 <= i < |run| && AtRest(run[i])
    ensures var key := ReturnKey(ReturnOrder(steps, i), run[i].tellee);
            && Sorting.IsStableSort(run[i].parts, PartsOf(run[i].chunks), key)
            && (PartsOf(run[i].chunks) == run[i].parts <==> Sorting.Falling(run[i].parts, key))
  {
    assert i <= |steps|;
    hide IsRun, Flow, Chained, Unrepeated, ToldTruly, NoneForgotten;
    hide Tiles, Listed, InWritingOrder, Sorting.IsStableSort, Sorting.Falling, ReturnKey;
    OrderKept(run, steps, startIndex, chunkMaxLines, i);
    EveryInterleavingIsSafe(run, steps, startIndex, chunkMaxLines, i);
    AllReturned(run[i], ReturnOrder(steps, i));
    SortedByReturn(run[i], ReturnOrder(steps, i));
  }
}
