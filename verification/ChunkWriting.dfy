/** Writings of the merged batches: any run of the writer that was given them, and one with calls made in turn. */
module ChunkWriting {
  import opened Prelude
  import opened Entries
  import opened ChunkProtocol
  import opened ChunkRuns

  /** A run of the writer, the moment at which the manifest was last saved, and the moment it is read. */
  datatype Writing = Writing(run: seq<World>, steps: seq<Step>, saved: nat, read: nat)

  /** By the time the manifest is saved every batch has been handed to an append, in order. */
  ghost predicate Writes(wr: Writing, batches: seq<seq<LogEntry>>, chunkMaxLines: int) {
    && IsRun(wr.run, wr.steps, 0, chunkMaxLines)
    && wr.saved <= wr.read < |wr.run|
    && Appended(wr.steps, wr.saved) == Flatten(batches)
  }

  /** The remainder was asked for at step `r`, when every entry was pushed, and all calls have returned. */
  ghost predicate RemainderAt(wr: Writing, r: int)
    requires wr.saved <= |wr.steps| < |wr.run|
  {
    && 0 <= r < wr.saved && wr.steps[r].Remainder? && AllPushed(wr.run[r])
    && (forall k :: r < k < wr.saved ==> !wr.steps[k].Append?)
    && AtRest(wr.run[wr.saved])
  }

  ghost predicate Finished(wr: Writing)
    requires wr.saved <= |wr.steps| < |wr.run|
  {
    exists r :: RemainderAt(wr, r)
  }

  // ---------- writing in turn ----------

  /** A run so far, with calls made in turn, that was given `given`. */
  ghost predicate Going(run: seq<World>, steps: seq<Step>, chunkMaxLines: int, given: seq<LogEntry>) {
    IsRun(run, steps, 0, chunkMaxLines) && InTurn(run, steps, |steps|) && Appended(steps, |steps|) == given
  }

  lemma {:induction false} AppendedPrefix(steps: seq<Step>, s: Step, i: int)
    requires 0 <= i <= |steps|
    ensures Appended(steps + [s], i) == Appended(steps, i)
  {
    if i > 0 {
      AppendedPrefix(steps, s, i - 1);
    }
  }

  lemma Goes(run: seq<World>, steps: seq<Step>, chunkMaxLines: int, given: seq<LogEntry>, s: Step)
    requires Going(run, steps, chunkMaxLines, given)
    requires var w := run[|steps|]; Enabled(w, s) && (s.Append? || s.Remainder? ==> AtRest(w))
    ensures Going(run + [Next(run[|steps|], s, chunkMaxLines)], steps + [s], chunkMaxLines,
                  given + if s.Append? then s.entries else [])
  {
    hide Next, Enabled;
    AppendedPrefix(steps, s, |steps|);
  }

  /** No call and no flush in progress. */
  predicate Idle(w: World) {
    AtRest(w) && w.chain == [] && w.flush.None?
  }

  method Take(run: seq<World>, steps: seq<Step>, chunkMaxLines: int, s: Step, ghost given: seq<LogEntry>)
    returns (longer: seq<World>, more: seq<Step>)
    requires Going(run, steps, chunkMaxLines, given)
    requires var w := run[|steps|]; Enabled(w, s) && (s.Append? || s.Remainder? ==> AtRest(w))
    ensures more == steps + [s] && |longer| == |more| + 1 && run <= longer
    ensures longer[|more|] == Next(run[|steps|], s, chunkMaxLines)
    ensures Going(longer, more, chunkMaxLines, given + if s.Append? then s.entries else [])
  {
    Goes(run, steps, chunkMaxLines, given, s);
    more, longer := steps + [s], run + [Next(run[|steps|], s, chunkMaxLines)];
  }

  /** The only call waits for its flush: the buffer becomes a part. */
  method Flush(run: seq<World>, steps: seq<Step>, chunkMaxLines: int, id: Id, ghost given: seq<LogEntry>)
    returns (longer: seq<World>, more: seq<Step>)
    requires Going(run, steps, chunkMaxLines, given)
    requires var w := run[|steps|]; w.callers.Keys == {id} && w.callers[id].Waiting? && w.chain == [id] && w.flush.None? && w.buffer != []
    ensures Going(longer, more, chunkMaxLines, given) && steps <= more && run <= longer && |longer| == |more| + 1
    ensures var w, v := run[|steps|], longer[|more|];
            && v.callers.Keys == {id} && v.callers[id].Pushing? && v.callers[id].rest == w.callers[id].rest
            && v.chain == [] && v.flush.None? && v.buffer == [] && v.finished == w.finished
    ensures forall k :: |steps| <= k < |more| ==> !more[k].Append?
  {
    hide Going;
    assert given + [] == given;
    longer, more := Take(run, steps, chunkMaxLines, Begin, given);
    longer, more := Take(longer, more, chunkMaxLines, Snapshot(0), given);
    longer, more := Take(longer, more, chunkMaxLines, Written(0), given);
    longer, more := Take(longer, more, chunkMaxLines, Resume(id), given);
  }

  /** One append, from the call to its return. */
  method AppendOne(run: seq<World>, steps: seq<Step>, chunkMaxLines: int, id: Id, entries: seq<LogEntry>, ghost given: seq<LogEntry>)
    returns (longer: seq<World>, more: seq<Step>)
    requires Going(run, steps, chunkMaxLines, given) && Idle(run[|steps|]) && id !in run[|steps|].finished
    ensures Going(longer, more, chunkMaxLines, given + entries) && Idle(longer[|more|])
    ensures longer[|more|].finished == run[|steps|].finished + {id}
  {
    assert |run| == |steps| + 1;
    hide Going;
    longer, more := Take(run, steps, chunkMaxLines, Append(id, entries), given);
    ghost var all := given + entries;
    assert all + [] == all;
    while longer[|more|].callers[id].rest != []
      invariant Going(longer, more, chunkMaxLines, all) && |longer| == |more| + 1
      invariant var w := longer[|more|];
                && w.callers.Keys == {id} && w.callers[id].Pushing? && w.chain == [] && w.flush.None?
                && w.finished == run[|steps|].finished
      decreases |longer[|more|].callers[id].rest|
    {
      longer, more := Take(longer, more, chunkMaxLines, Push(id), all);
      if longer[|more|].callers[id].Waiting? {
        longer, more := Flush(longer, more, chunkMaxLines, id, all);
      }
    }
    longer, more := Take(longer, more, chunkMaxLines, Finish(id), all);
    assert longer[|more|].callers.Keys == {};
  }

  /** The remainder, from the call to its return. */
  method RemainderOne(run: seq<World>, steps: seq<Step>, chunkMaxLines: int, id: Id, ghost given: seq<LogEntry>)
    returns (longer: seq<World>, more: seq<Step>)
    requires Going(run, steps, chunkMaxLines, given) && Idle(run[|steps|]) && id !in run[|steps|].finished
    ensures Going(longer, more, chunkMaxLines, given) && Idle(longer[|more|])
    ensures run <= longer && steps < more && more[|steps|] == Remainder(id)
    ensures forall k :: |steps| < k < |more| ==> !more[k].Append?
  {
    hide Going;
    assert given + [] == given;
    longer, more := Take(run, steps, chunkMaxLines, Remainder(id), given);
    if longer[|more|].callers != map[] {
      longer, more := Flush(longer, more, chunkMaxLines, id, given);
      longer, more := Take(longer, more, chunkMaxLines, Finish(id), given);
      assert longer[|more|].callers.Keys == {};
    }
  }

  /** The batches written with every call awaited. */
  method WriteInTurn(batches: seq<seq<LogEntry>>, chunkMaxLines: int) returns (wr: Writing)
    ensures Writes(wr, batches, chunkMaxLines) && Finished(wr) && InTurn(wr.run, wr.steps, wr.saved)
  {
    var run, steps := [Start(0)], [];
    for n := 0 to |batches|
      invariant Going(run, steps, chunkMaxLines, Flatten(batches[..n])) && Idle(run[|steps|])
      invariant forall id :: id in run[|steps|].finished ==> id < n
    {
      run, steps := AppendOne(run, steps, chunkMaxLines, n, batches[n], Flatten(batches[..n]));
      assert batches[..n + 1] == batches[..n] + [batches[n]];
      FlattenSnoc(batches[..n], batches[n]);
    }
    assert batches[..|batches|] == batches;
    var longer, more := RemainderOne(run, steps, chunkMaxLines, |batches|, Flatten(batches));
    wr := Writing.Writing(longer, more, |more|, |more|);
    assert RemainderAt(wr, |steps|);
  }
}
