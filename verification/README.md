# The log-merge and paging engine, verified

The extension takes a directory of rotated log files, orders all their lines in one falling stream, stores the stream in chunk files with a manifest, and serves rows of it in rising order to a viewer that filters and searches. This project models that engine and two event protocols beside it in Dafny, and proves what it keeps, loses and returns, for every input and over every run.

The parts follow the pipeline:

- **Time** (`Calendar`, `Stitching`, `MonotonicCorrection`, `TimezoneCorrection`): calendar arithmetic of `Date.UTC` (sections 21.4.1 and 21.4.3.4 of ECMA-262), the year roll-over of times without a year, the corrector that keeps times from rising, the detector of time zone jumps.
- **Reading and merging** (`LineReading`, `Heaps`, `Sorting`, `Directory`, `TypePass`, `Merging`, `FullMerge`): files read backwards in chunks, the pass over one log type, the k-way merge through a heap.
- **Warmup and session** (`TailWalking`, `Warmup`, `WarmMerge`, `MergeSession`, `Session`): the newest lines of every type, shared out fairly; the decision to skip the disk merge; a whole session up to the rows on screen.
- **Chunk store** (`ChunkProtocol`, `ChunkRuns`, `ChunkExamples`, `ChunkWriting`, `ChunkStore`, `Paging`, `StoredRuns`): the writer under concurrent callers as a state machine, what its runs lose and in which order they record, the same writer called in turn, the manifest, the reader of line ranges, and what it reads while the writer is at work.
- **Pagination** (`Views`, `Scans`, `Pagination`, `CacheProtocol`, `CacheExample`): memory mode and file mode behind one numbering of rows, windowed scans, the cached total under interleaving.
- **Filters** (`FilterLanguage`, `FilterMatching`): parsing, printing and normalising of filter texts against what the matcher accepts.
- **Events** (`RefreshCoalescing`, `Messaging`): the refresh coalescer and the request bridge as machines over the callbacks of the event loop.

Objects whose methods change their fields are classes; each method is proved against a function or relation on the state, and the laws are proved of those. Code that yields at an `await` is also given as a machine whose steps are the stretches between awaits; laws are then stated of every run. Choices of the environment (chunk sizes of reads, window sizes, read-ahead, what a directory or a clock gives, whether posting throws, how the calls of the writer overlap) are parameters, and the laws hold for all of them.

## Where the code does less than its words

- `Date.UTC` reads the years 0 to 99 as 1900 to 1999, so one year further back can be later (`Calendar.BackIntoTheRemap`); `Calendar.OneYearBack` says exactly when it is earlier. The year loop ends in any case.
- A session whose line count alone decides to skip the disk merge shows nothing unless the manager's warmup ran before (`MergeSession.UnwarmedSkipLosesALine`); `MergeSession.RunSession` says exactly when what is shown is complete.
- The merge does not await its batch callback, so appends overlap; a remainder flush that comes while an append waits for its own flush writes nothing, and what that append then pushes stays in the buffer (`ChunkExamples.LateEntryStaysBehind`). Nothing is lost if and only if every push is followed by a snapshot (`ChunkRuns.AtRestNothingIsLost`); asking for the remainder once every entry is pushed is enough (`ChunkRuns.RemainderLeavesNothing`).
- Appends that overlap can mix their entries and record their parts in another order than that of writing (`ChunkExamples.OverlapMixesEntries`). The recorded order is that of writing if and only if no call told of an earlier part returns after one told of a later part (`ChunkRuns.ManifestOrder`); calls made in turn keep the order of what is appended (`ChunkRuns.InTurnInOrder`).
- A session that skips the disk merge leaves earlier rows in place if there is no valid line, or if no warmup ran and either the count decided or a memory buffer is left from before (`Session.Serve`, `Session.EarlierRowsStay`, `Session.EmptyDirectoryKeepsRows`).
- A count during which the data change can return a number that is right for neither (`CacheExample.OvertakenCount`); it is never cached under the new data (`CacheProtocol.NoStaleTotal`).
- Memory mode and file mode answer differently for a window that ends before row 1, and for one past the end while no file is open (`Views.BeforeTheStartDiffers`, `Views.PastTheEndDiffers`); `Views.ModesAgree` and `Views.ModesAgreeWithReader` give the exact condition. The comment on that path speaks of an empty answer; the code answers with the tail.
- A search with a negative limit gives one hit in memory mode and none in file mode (`Views.NegativeLimitDiffers`); `Views.SearchesAgree` gives the exact condition.
- Printing and parsing back gives the tidied groups exactly when no token holds white space or a comma (`FilterLanguage.ParseOfSerialize`, `FilterLanguage.SpacedTokenIsSplit`).
- A request whose posting throws leaves its abort key pointing at nothing (`Messaging.StaleKey`); a key does so if and only if the last request with it could not be posted (`Messaging.KeysLeadToPending`).
- The corrector's outputs equal its inputs exactly when these never rise (`MonotonicCorrection.UnchangedIffFalling`).
- The warmup notices the end of a type only by a read that comes up short, so a directory with exactly as many valid lines as the target is not reported as covered (`Warmup.Collect`, `MergeSession.WarmupTailPrepass`).

## Model

| member | source | states |
|---|---|---|
| `Calendar.YearLength` | src/core/logs/LogFileIntegration.ts:70-82 | consecutive years are 365 or 366 days apart by the Gregorian rule, for every year |
| `Calendar.YearIsUnique` | src/core/logs/LogFileIntegration.ts:70-82 | the year found for a day is the only one whose days include it |
| `Calendar.ShiftMeaning` | src/core/logs/LogFileIntegration.ts:70-82 | a shift by whole years is the same month, date and clock in the shifted year, after the remap of 0 to 99 |
| `Calendar.UtcRoundTrip` | src/core/logs/LogFileIntegration.ts:70-82 | rebuilding a time from its own fields gives it back if and only if its year is not 0 to 99 |
| `Calendar.OneYearBack` | src/core/logs/LogFileIntegration.ts:104-107 | one more year back strictly lowers the time if and only if the step does not enter the remapped years |
| `Calendar.BackIntoTheRemap` | src/core/logs/LogFileIntegration.ts:104-107 | from the first day of the year 101, two years back is later than one year back |
| `Calendar.ShiftKeepsMonthAndDate` | src/core/logs/LogFileIntegration.ts:70-82 | moving to another year keeps month, date and clock, and 29 February becomes 1 March in a common year |
| `Stitching.YearlessStitcher.Apply` | src/core/logs/LogFileIntegration.ts:83-112 | one call is a step of the stitcher: a dated line keeps its time, a yearless one up to 1500 ms above the baseline is put 1 ms below it, and one further above goes back by the fewest further years that bring it to the baseline; the loop ends for every time |
| `Stitching.YearlessStitcher.constructor` | src/core/logs/LogFileIntegration.ts:64-68 | no baseline and no shift |
| `Stitching.StitchAll` | src/core/logs/LogFileIntegration.ts:555-561 | stitching a list is a run of the stitcher |
| `Stitching.StepIsDetermined` | src/core/logs/LogFileIntegration.ts:83-112 | "fewest further years" leaves no choice of output or state |
| `Stitching.RunIsDetermined` | src/core/logs/LogFileIntegration.ts:555-561 | the outputs depend on the lines alone |
| `Stitching.BaselineIsLeast` | src/core/logs/LogFileIntegration.ts:83-112 | at every point of every run the baseline is the least of the counted outputs, and the shift is never forward |
| `Stitching.YearlessNeverRises` | src/core/logs/LogFileIntegration.ts:83-112 | in every run dated lines keep their time and a yearless output is at most every counted output before it |
| `MonotonicCorrection.MonotonicCorrector.Adjust` | src/core/logs/time/TimezoneHeuristics.ts:47-87 | one call moves the corrector to the next state of the run and returns its last value |
| `MonotonicCorrection.CorrectAll` | src/core/logs/LogFileIntegration.ts:566-570 | the correcting loop gives the outputs of the run |
| `MonotonicCorrection.OutputsNeverRise` | src/core/logs/time/TimezoneHeuristics.ts:47-87 | the outputs never rise, for every input and granularity |
| `MonotonicCorrection.LineOutcome` | src/core/logs/time/TimezoneHeuristics.ts:47-87 | each line is passed through, pulled one below, or levelled with a lasting shift, by how far it stands above the line before |
| `MonotonicCorrection.DriftIsBounded` | src/core/logs/time/TimezoneHeuristics.ts:47-87 | every output is within 1501 ms below its offset value, the offset is never positive and never rises, and its size is at most the budget of the shifted lines |
| `MonotonicCorrection.UnchangedIffFalling` | src/core/logs/time/TimezoneHeuristics.ts:47-87 | the pass changes nothing if and only if the input never rises |
| `MonotonicCorrection.SecondPassChangesNothing` | src/core/logs/time/TimezoneHeuristics.ts:47-87 | a fresh second pass over the outputs is the identity |
| `TimezoneCorrection.TimezoneCorrector.Adjust` | src/core/logs/time/TimezoneHeuristics.ts:169-275 | one call first settles an open suspicion, then records the line |
| `TimezoneCorrection.TimezoneCorrector.FinalizeSuspected` | src/core/logs/time/TimezoneHeuristics.ts:282-292 | tells whether a suspicion was open and drops it |
| `TimezoneCorrection.TimezoneCorrector.DrainRetroSegments` | src/core/logs/time/TimezoneHeuristics.ts:328-332 | hands out the waiting segments and keeps none |
| `TimezoneCorrection.ReturnedIsCrossing` | src/core/logs/time/TimezoneHeuristics.ts:178-191 | the three-part test for a return holds if and only if the line has crossed the pre-jump baseline |
| `TimezoneCorrection.ReturnConfirms` | src/core/logs/time/TimezoneHeuristics.ts:191-222 | at a return the new segment is justified by the lines fed since the jump |
| `TimezoneCorrection.FeedKeepsSound` | src/core/logs/time/TimezoneHeuristics.ts:169-275 | feeding a line keeps every segment and the open suspicion justified by the history |
| `TimezoneCorrection.FeedOutcome` | src/core/logs/time/TimezoneHeuristics.ts:169-275 | a suspicion ends with one segment exactly at the first line back at the baseline, and opens exactly at a line above the last corrected value that is three hours or more from the line before |
| `TimezoneCorrection.RunIsSound` | src/core/logs/time/TimezoneHeuristics.ts:169-332 | every state of every run of feeds, drains and finalisations is sound |
| `TimezoneCorrection.RetroSegmentsAreSound` | src/core/logs/time/TimezoneHeuristics.ts:169-332 | in every run the segments are non-empty, disjoint, rising and ended before the newest line, cover lines strictly beyond the baseline, and carry 3 to 14 whole hours against the jump |
| `LineReading.SegmentsSplit` | src/core/logs/LogFileIntegration.ts:984-1014 | cutting at a line feed splits the segments |
| `LineReading.LastLine` | src/core/logs/LogFileIntegration.ts:984-1014 | what stands after the last line feed is the last line, if it is not empty |
| `LineReading.LastIndexOf` | src/core/logs/LogFileIntegration.ts:987-990 | the greatest index of a character, or -1 if there is none |
| `LineReading.ReverseLineReader.NextLine` | src/core/logs/LogFileIntegration.ts:984-1014 | hands out the last pending line, and nothing exactly when none is pending, for every chunk size |
| `LineReading.ReverseLineReader.Refill` | src/core/logs/LogFileIntegration.ts:1000-1012 | reading a chunk moves towards the start and changes nothing of the text still to be read, byte order mark aside |
| `LineReading.ReverseLineReader.constructor` | src/core/logs/LogFileIntegration.ts:965-982 | all lines of the file are pending |
| `LineReading.ReadBackwards` | src/core/logs/LogFileIntegration.ts:965-1014 | for every content and chunk size the reader yields the non-empty lines in reverse, minus one CR and the byte order mark, and ends |
| `LineReading.StreamOf` | src/core/logs/LogFileIntegration.ts:835-846 | a stream delivers the content in non-empty pieces |
| `LineReading.CountLinesInFile` | src/core/logs/LogFileIntegration.ts:835-854 | the count over any cut into data events is that of the whole content |
| `LineReading.CountBoundsLines` | src/core/logs/LogFileIntegration.ts:835-854 | the count bounds the lines the reverse reader yields |
| `Heaps.RootComesFirst` | src/core/logs/LogFileIntegration.ts:1270-1317 | the root of a heap comes before or with every element |
| `Heaps.SwapUp` | src/core/logs/LogFileIntegration.ts:1296-1303 | lifting an element past its parent moves the one misplaced edge up and breaks no other |
| `Heaps.SwapDown` | src/core/logs/LogFileIntegration.ts:1304-1316 | sinking an element below its earlier child moves the misplaced edges down and breaks no other |
| `Heaps.MaxHeap.Push` | src/core/logs/LogFileIntegration.ts:1282-1285 | keeps the heap and adds exactly the element |
| `Heaps.MaxHeap.Pop` | src/core/logs/LogFileIntegration.ts:1286-1295 | keeps the heap, removes one element that comes before or with all others, and gives none on an empty heap |
| `Heaps.MaxHeap.Up` | src/core/logs/LogFileIntegration.ts:1296-1303 | restores the heap above a misplaced element and keeps the elements |
| `Heaps.MaxHeap.Down` | src/core/logs/LogFileIntegration.ts:1304-1316 | restores the heap below a misplaced element and keeps the elements |
| `Sorting.SortedIsUnique` | src/core/logs/LogFileIntegration.ts:625-643 | under a total order there is one sorted sequence with given elements |
| `Sorting.SortOfFalling` | src/core/logs/LogFileIntegration.ts:582-582 | any stable sort of a list that already falls is that list |
| `Sorting.StableSortIsStable` | src/core/logs/LogFileIntegration.ts:582-582 | the sort used for files and chunks is a stable sort in the sense of section 23.1.3.30 of ECMA-262 |
| `Merging.MergeIsUnique` | src/core/logs/LogFileIntegration.ts:604-701 | lists have one merge under a total order |
| `Merging.MergeOfType` | src/core/logs/LogFileIntegration.ts:604-701 | a merge restricted to one type is that type's list |
| `Merging.PopStep` | src/core/logs/LogFileIntegration.ts:657-693 | moving the heap's first item to the output keeps the output sorted and ahead of all that is unread or in the heap |
| `Merging.ReadKeepsMerged` | src/core/logs/LogFileIntegration.ts:645-693 | reading on in a list keeps the account of read, held and put out |
| `Merging.ReadPrimes` | src/core/logs/LogFileIntegration.ts:645-693 | after a read the list has an item in the heap or has ended, and other lists keep theirs |
| `Merging.FinishStep` | src/core/logs/LogFileIntegration.ts:657-701 | with the heap empty the output is the merge |
| `FullMerge.MergeCmpOrders` | src/core/logs/LogFileIntegration.ts:625-643 | the comparator with its tie-breaks by file rank, file name, line, type and position is a total order that tells all items apart |
| `FullMerge.MergedCursor.NextBatch` | src/core/logs/LogFileIntegration.ts:1214-1259 | returns the next entries up to the size, and notices the end only by an empty read |
| `FullMerge.MergedCursor.Feed` | src/core/logs/LogFileIntegration.ts:645-649 | pushes exactly the next entries of its list, numbered on |
| `FullMerge.Turn` | src/core/logs/LogFileIntegration.ts:657-693 | one turn puts out the first item and reads on in its list, and the items outstanding become fewer |
| `FullMerge.KWayMerge` | src/core/logs/LogFileIntegration.ts:604-701 | the output is the merge of the lists, cut into batches of the batch size, for every read-ahead |
| `FullMerge.MergeIgnoresReadAhead` | src/core/logs/LogFileIntegration.ts:604-701 | two merges of the same lists are equal, whatever read-ahead and batch size made them |
| `FullMerge.MergeIsFaithful` | src/core/logs/LogFileIntegration.ts:604-701 | times never rise over the merge, each type keeps its own list in order, and nothing else is in it |
| `Directory.TypeKeys` | src/core/logs/LogFileIntegration.ts:864-873 | the types are those of the files, each once |
| `TypePass.LoadFile` | src/core/logs/LogFileIntegration.ts:442-526 | the entries of a file are its valid lines, last first, placed by rank and line |
| `TypePass.LoadType` | src/core/logs/LogFileIntegration.ts:442-526 | the entries of a type are the valid lines of its files in turn, in physical order |
| `TypePass.TimeAndSort` | src/core/logs/LogFileIntegration.ts:555-582 | stitching, correcting and sorting keep every line in its place, whatever the times, and leave times that never rise |
| `TypePass.PlacedIsSorted` | src/core/logs/LogFileIntegration.ts:625-643 | a list in physical order whose times never rise is sorted for the merge |
| `TypePass.SortType` | src/core/logs/LogFileIntegration.ts:410-602 | what is stored for a type is its valid lines in physical order with times that never rise |
| `TailWalking.TypeTailWalker.Next` | src/core/logs/LogFileIntegration.ts:1440-1469 | hands out the next lines of the type across files; fewer than asked for means it has ended, and an end noticed is an end |
| `TailWalking.TypeTailWalker.EnsureReader` | src/core/logs/LogFileIntegration.ts:1416-1439 | opens the next file or notices that there is none, losing no line |
| `TailWalking.TypeTailWalker.Advance` | src/core/logs/LogFileIntegration.ts:1440-1469 | a turn gives the first remaining line or moves to the next file |
| `TailWalking.ValidTailOfFiles` | src/core/logs/LogFileIntegration.ts:1403-1469 | the valid ones among all lines a walker hands out are the valid lines of its files |
| `TailWalking.ToEntries` | src/core/logs/LogFileIntegration.ts:1484-1527 | the entries made of lines are the valid ones, in order |
| `TailWalking.BatchRead` | src/core/logs/LogFileIntegration.ts:1500-1527 | adds up to the needed number of valid lines to the buffer, moved from the walker's remainder; fewer means the type has ended |
| `Warmup.Allocate` | src/core/logs/LogFileIntegration.ts:1391-1399 | shares differ by at most one, respect the cap, do not exceed the target, and make it up if no share meets the cap |
| `Warmup.TotalWithinSupply` | src/core/logs/LogFileIntegration.ts:1529-1590 | buffers within each type's supply total at most the supply, and equal it only if each does |
| `Warmup.TakeFrom` | src/core/logs/LogFileIntegration.ts:1500-1527 | reading for one type changes no other, adds what it got to the total, and ends the type if it got less than asked |
| `Warmup.FirstRound` | src/core/logs/LogFileIntegration.ts:1529-1535 | every type is read up to its share |
| `Warmup.Draw` | src/core/logs/LogFileIntegration.ts:1559-1588 | a draw gets at most the deficit, and either takes a type out of play or gets something |
| `Warmup.Redistribute` | src/core/logs/LogFileIntegration.ts:1539-1590 | ends for every input, never exceeds the target, falls short only when every type is exhausted or at the cap, and otherwise leaves some type whose end is not noticed |
| `Warmup.Tally` | src/core/logs/LogFileIntegration.ts:1529-1590 | buffers that stop there hold exactly the lesser of target and supply, the newest lines of each type |
| `Warmup.Collect` | src/core/logs/LogFileIntegration.ts:1391-1590 | collects exactly min(target, sum over types of min(cap, valid lines)), no type above the cap; every type has noticed its end if and only if the target is not met and every type is below the cap, and then all lines are collected |
| `WarmMerge.WarmCmpOrders` | src/core/logs/LogFileIntegration.ts:1642-1646 | the warm comparator is a total order that tells all items apart |
| `WarmMerge.MergeWarm` | src/core/logs/LogFileIntegration.ts:1641-1660 | the warm list is the merge of the timed buffers; the bound on its length cuts nothing off |
| `WarmMerge.WarmTurn` | src/core/logs/LogFileIntegration.ts:1652-1660 | one turn puts out the first item and replaces it by the next of its type |
| `MergeSession.PooledIsAll` | src/core/logs/LogFileIntegration.ts:864-873 | grouping by type neither loses nor doubles a line |
| `MergeSession.CompleteHoldsAllOnce` | src/core/logs/LogFileIntegration.ts:410-701 | a complete list holds every valid line of the directory exactly once |
| `MergeSession.CompleteListsAgree` | src/core/logs/LogFileIntegration.ts:1597-1660 | a covering warm list and the full merge are permutations of the same lines with the same restriction to every type |
| `MergeSession.WarmupTailPrepass` | src/core/logs/LogFileIntegration.ts:1360-1682 | the warm list is the newest lines of each type with times that never rise, of exactly the collected size; coverage is reported if and only if the target is not met and every type is below the cap, and the list is then complete |
| `MergeSession.UncappedSupply` | src/core/logs/LogFileIntegration.ts:1373-1375 | without a limit the types give every valid line, as far as the target asks |
| `MergeSession.SortTypes` | src/core/logs/LogFileIntegration.ts:410-602 | each type's list is its valid lines in physical order with times that never rise |
| `MergeSession.MergeToDisk` | src/core/logs/LogFileIntegration.ts:410-701 | the batches put end to end are a complete list whose times never rise |
| `MergeSession.CountTotalLinesInDir` | src/core/logs/LogFileIntegration.ts:789-807 | the estimate is the sum of the counts of the files, each read as a stream |
| `MergeSession.CountBoundsValid` | src/core/logs/LogFileIntegration.ts:202-215 | the estimate bounds the number of valid lines |
| `MergeSession.FittingWarmIsComplete` | src/core/logs/LogFileIntegration.ts:274-311 | an uncapped warm list of a directory within the threshold is complete |
| `MergeSession.EmptyIsComplete` | src/core/logs/LogFileIntegration.ts:274-311 | showing nothing is complete if and only if there is no valid line |
| `MergeSession.UnwarmedSkipLosesALine` | src/core/logs/LogFileIntegration.ts:274-311 | a one-line directory under the threshold of which an unwarmed skip shows nothing |
| `MergeSession.RunSession` | src/core/logs/LogFileIntegration.ts:202-311 | skips if and only if the count is within the threshold, or, without a count, the valid lines are below the target; what is shown is complete if and only if it was warmed, or could not count, or exceeds the threshold, or has no valid line; its times never rise |
| `Session.Publish` | src/core/sessions/LogSessionManager.ts:489-561 | for every interleaving of the appends the service then serves exactly the recorded parts, whatever it served before; every entry once if the remainder came after the last push, and the batches end to end if also every call was made in turn |
| `Session.PublishInTurn` | src/core/sessions/LogSessionManager.ts:489-561 | with each append awaited the chunk writer, manifest and reader together serve the batches end to end |
| `Session.Serve` | src/core/sessions/LogSessionManager.ts:315-563 | a session replaces what is served if and only if it does not skip, or there is a valid line and it was warmed or, uncounted, found no old buffer; else the service is as it was; a skipped session then serves what it shows, a merge what its writing recorded: the same list for calls in turn, a permutation if only the remainder came last |
| `Session.EarlierRowsStay` | src/core/sessions/LogSessionManager.ts:371-446 | a one-line directory whose session leaves the earlier rows on show |
| `Session.EmptyDirectoryKeepsRows` | src/core/sessions/LogSessionManager.ts:327-373 | an empty directory within the threshold never replaces anything |
| `Session.ServedRows` | src/core/sessions/LogSessionManager.ts:567-590 | rows read in range are the shown entries from the end, numbered as asked, in rising time |
| `ChunkProtocol.FlowKept` | src/core/logs/ChunkWriter.ts:34-162 | every step keeps all that was pushed, in order, spread over the parts, the snapshot in flight and the buffer; part numbers rise |
| `ChunkProtocol.ChainedKept` | src/core/logs/ChunkWriter.ts:56-162 | every step keeps exactly the waiting callers in the chain or at the flush, each once |
| `ChunkProtocol.ReportedKept` | src/core/logs/ChunkWriter.ts:34-54 | every step keeps each part told to exactly one caller and recorded at most once, and forgets none |
| `ChunkProtocol.TilesKept` | src/core/logs/ManifestWriter.ts:83-94 | every step keeps the chunks end to end from 0 to the merged count |
| `ChunkProtocol.EveryInterleavingIsSafe` | src/core/logs/ChunkWriter.ts:34-162 | the four hold in every state that any interleaving of appends and remainder flushes reaches |
| `ChunkProtocol.AtRestAccount` | src/core/sessions/LogSessionManager.ts:490-543 | when all calls have returned, manifest and buffer together hold every pushed entry exactly once |
| `ChunkRuns.BufferIsEmpty` | src/core/logs/ChunkWriter.ts:34-90 | at every moment of every run the buffer is empty if and only if every push so far is followed by a snapshot |
| `ChunkRuns.AtRestNothingIsLost` | src/core/sessions/LogSessionManager.ts:490-543 | when all calls have returned, the manifest holds every pushed entry exactly once if and only if every push of the run is followed by a snapshot |
| `ChunkRuns.RemainderLeavesNothing` | src/core/sessions/LogSessionManager.ts:538-546 | a remainder asked for when no call has entries left to push, with no append after it, loses nothing: once all calls have returned the manifest holds every appended entry exactly once |
| `ChunkRuns.PushedIsAppended` | src/core/logs/ChunkWriter.ts:34-47 | whenever no call has entries left, what was pushed is what was appended, in some order |
| `ChunkRuns.InTurnInOrder` | src/core/sessions/LogSessionManager.ts:490-543 | if every call began when all before it had returned, manifest and then buffer hold what was appended, in order |
| `ChunkRuns.ManifestOrder` | src/core/sessions/LogSessionManager.ts:490-543 | when all calls have returned, the manifest is the stable sort of the written parts by the order in which the calls told of them returned, and so is in writing order if and only if these agree |
| `ChunkExamples.OverlapMixesEntries` | src/core/logs/ChunkWriter.ts:34-162 | two overlapping appends whose entries are pushed in an order that is neither call after the other and recorded in a third |
| `ChunkExamples.LateEntryStaysBehind` | src/core/logs/ChunkWriter.ts:34-54 | a run in which all calls have returned, a remainder flush was made, and an entry is only in the buffer |
| `ChunkWriting.WriteInTurn` | src/core/sessions/LogSessionManager.ts:490-543 | for every list of batches and every chunk size the machine has a run with each call awaited that is given the batches and ends with the remainder |
| `StoredRuns.EveryManifestReads` | src/core/logs/PagedReader.ts:27-47 | in every interleaving a reader opened at any later moment on the manifest saved at one is in order and serves exactly the parts recorded by then |
| `StoredRuns.OverlappingAppendsLoseNothing` | src/core/sessions/LogSessionManager.ts:490-543 | after overlapping appends and a remainder asked for once all is pushed, the reader serves every appended entry exactly once |
| `StoredRuns.AppendsInTurnKeepOrder` | src/core/sessions/LogSessionManager.ts:490-543 | after appends made in turn and the remainder, the reader serves what was appended, in order |
| `ChunkStore.HoldsOneMore` | src/core/logs/ManifestWriter.ts:83-94 | a new part at the merged count extends what the manifest holds by that part |
| `ChunkStore.HoldsOnGrowingDisk` | src/core/logs/ChunkWriter.ts:98-150 | new part files change nothing of what the manifest holds |
| `ChunkStore.ManifestWriter.AddChunk` | src/core/logs/ManifestWriter.ts:83-94 | adds a non-empty chunk in its place by start and renews count and merged lines; refuses others |
| `ChunkStore.ManifestWriter.Load` | src/core/logs/ManifestWriter.ts:29-68 | drops nonsensical chunks, sorts the rest, takes the counts from them, and raises a stated total below the merged count to it |
| `ChunkStore.ManifestWriter.SetTotal` | src/core/logs/ManifestWriter.ts:78-80 | takes a stated total and keeps the old one if none is stated |
| `ChunkStore.LoadIsIdentity` | src/core/logs/ManifestWriter.ts:29-68 | the repair on loading leaves a manifest that holds data as it is |
| `ChunkStore.ChunkWriter.FlushChunk` | src/core/logs/ChunkWriter.ts:56-162 | writes the whole buffer to a part numbered above all others, and touches no other file |
| `ChunkStore.ChunkWriter.PushEntry` | src/core/logs/ChunkWriter.ts:36-45 | buffers the entry, or writes the full buffer with it as a part |
| `ChunkStore.ChunkWriter.AppendBatch` | src/core/logs/ChunkWriter.ts:34-47 | the parts reported and the buffer left are the old buffer and the batch, in order, each part a full chunk, numbers rising |
| `ChunkStore.ChunkWriter.FlushRemainder` | src/core/logs/ChunkWriter.ts:49-54 | writes what is buffered, and nothing exactly when there is nothing |
| `ChunkStore.StoreBatch` | src/core/sessions/LogSessionManager.ts:489-494 | after a batch, what the manifest holds and what is buffered are all entries so far, in order |
| `ChunkStore.StoreAll` | src/core/sessions/LogSessionManager.ts:489-546 | for every chunk size and cut into batches, the manifest holds exactly the batches end to end, and no earlier file changes |
| `Paging.SliceAppend` | src/core/logs/PagedReader.ts:95-108 | a range over two pieces is the range of the first and the shifted range of the second |
| `Paging.RestIsBeyond` | src/core/logs/PagedReader.ts:95-108 | once the range is filled, later chunks add nothing |
| `Paging.PagedReader.ReadChunkSlice` | src/core/logs/PagedReader.ts:115-176 | the lines of a part in the range, none of a missing part |
| `Paging.PagedReader.ReadLineRange` | src/core/logs/PagedReader.ts:83-112 | any range, also beyond the ends, reads the same as that range of the whole stored sequence |
| `Paging.PagedReader.ReadPage` | src/core/logs/PagedReader.ts:70-82 | a page is the slice its number and size name |
| `Paging.OpenServesWhatIsHeld` | src/core/logs/PagedReader.ts:27-47 | opening a manifest that holds data gives a reader of that data, whatever merged count it stated |
| `Paging.PagesMakeTheWhole` | src/core/logs/PagedReader.ts:62-82 | for every reader the pages, as many as the page count says, make up the whole; if there is anything, the last page is not empty |
| `Views.ModesAgree` | src/core/logs/PaginationService.ts:189-292 | without a reader the two modes answer alike if and only if the request is empty, or ends at row 1 or later and starts within the rows or asks for a one-row tail |
| `Views.ModesAgreeWithReader` | src/core/logs/PaginationService.ts:189-292 | with a reader on the same rows they answer alike if and only if the request is empty or ends at row 1 or later |
| `Views.PastTheEndDiffers` | src/core/logs/PaginationService.ts:202-223 | a window past the end of two rows that the modes answer differently |
| `Views.BeforeTheStartDiffers` | src/core/logs/PaginationService.ts:189-194 | a window before row 1, which memory mode answers with nothing and file mode with the first row |
| `Views.InRangeAnswer` | src/core/logs/PaginationService.ts:189-292 | in range both modes answer the rows asked for under their numbers |
| `Views.MappedRange` | src/core/logs/PaginationService.ts:518-522 | the stored range of rows s to e, read and turned round, is rows s to e |
| `Views.MatchingReverse` | src/core/logs/PaginationService.ts:303-307 | filtering and turning round commute |
| `Views.PickFull` | src/core/logs/PaginationService.ts:327-339 | once enough rows are picked, later rows change nothing |
| `Views.HitIsRow` | src/core/logs/PaginationService.ts:475-483 | a hit's number and text are those of a row in range that passes the test |
| `Views.RowIsHit` | src/core/logs/PaginationService.ts:475-483 | every row in range that passes the test is a hit |
| `Views.HitsRise` | src/core/logs/PaginationService.ts:475-483 | hits come in rising row numbers |
| `Views.SearchesAgree` | src/core/logs/PaginationService.ts:461-485 | the two modes answer a search alike if and only if there is no hit or the limit is not negative |
| `Views.NegativeLimitDiffers` | src/core/logs/PaginationService.ts:461-485 | one hit and the limit -1: memory mode gives it, file mode does not |
| `Scans.ReadWindow` | src/core/logs/PaginationService.ts:327-331 | a window read from the file and turned round is the next stretch of ascending rows |
| `Scans.ScanFiltered` | src/core/logs/PaginationService.ts:321-340 | for every window size the scan picks the asked rows of the filtered ascending rows |
| `Scans.ScanCount` | src/core/logs/PaginationService.ts:130-139 | for every window size the count is the number of matching entries |
| `Scans.ScanSearch` | src/core/logs/PaginationService.ts:487-509 | for every window size the hits are the first ones among the filtered ascending rows |
| `Pagination.PaginationService.SetManifestDir` | src/core/logs/PaginationService.ts:28-40 | another directory brings its reader, a new version and no cache; the same one changes nothing |
| `Pagination.PaginationService.Reload` | src/core/logs/PaginationService.ts:43-56 | leaves memory mode, takes the new reader, moves the version on, drops the cache; does nothing without a directory |
| `Pagination.PaginationService.SeedWarmupBuffer` | src/core/logs/PaginationService.ts:158-164 | takes the buffer, announces the greater total, is active if and only if the buffer is not empty, moves the version on |
| `Pagination.PaginationService.ClearWarmup` | src/core/logs/PaginationService.ts:166-175 | drops an active buffer and moves the version on; else does nothing |
| `Pagination.PaginationService.SetFilter` | src/core/logs/PaginationService.ts:90-105 | keeps the trimmed filter; moves the version on and drops the cache if and only if it differs from the present one |
| `Pagination.HostFilterIsActive` | src/core/logs/PaginationService.ts:80-82 | a filter the service keeps is never blank, so "set" and "active" mean the same |
| `Pagination.PaginationService.ReadRangeByIdx` | src/core/logs/PaginationService.ts:181-293 | for every request in every state the answer is the view of the present rows, mode and filter |
| `Pagination.PaginationService.ReadFile` | src/core/logs/PaginationService.ts:245-292 | file mode moves both ends into the rows there are and answers those rows; an announced total serves nothing |
| `Pagination.FileRead` | src/core/logs/PaginationService.ts:254-292 | the mapped range of the stored rows, turned round and numbered, is the file view, and nothing if only a total is announced |
| `Pagination.PaginationService.ReadRangeFiltered` | src/core/logs/PaginationService.ts:296-341 | both modes, every window size: the asked slice of the matching rows in ascending order |
| `Pagination.PaginationService.GetFilteredTotal` | src/core/logs/PaginationService.ts:107-144 | a cached total if the key is the present one, else the number of rows the filter leaves; nothing but the cache changes |
| `Pagination.PaginationService.SearchAll` | src/core/logs/PaginationService.ts:452-510 | the first hits among the filtered rows, in both modes, except for a negative limit, which gives one in memory mode |
| `Pagination.SearchMemory` | src/core/logs/PaginationService.ts:469-485 | memory mode's loop gives the first hits, and one for a negative limit |
| `Pagination.InRangeReads` | src/core/logs/PaginationService.ts:181-341 | within the rows there are, every mode and filter answers exactly rows a to b of the filtered ascending rows |
| `Pagination.ReadsJoin` | src/core/logs/PaginationService.ts:181-341 | adjoining reads put together are the read of both |
| `Pagination.HitsCanBeRead` | src/core/logs/PaginationService.ts:452-510 | every hit reads back, at its own number, as the entry with the text found |
| `Pagination.NormalizedFilterFindsTheSame` | src/webviewers/log-viewer/react/components/FilterDialog.tsx:124-129 | a normalised filter finds the same rows as the filter as typed, in every state of the service |
| `CacheProtocol.ChangesMoveOn` | src/core/logs/PaginationService.ts:12-56 | whatever changes data, filter or mode strictly raises the version |
| `CacheProtocol.AskIsSafe` | src/core/logs/PaginationService.ts:107-144 | an answer given without waiting is the number of rows found |
| `CacheProtocol.ResumeIsSafe` | src/core/logs/PaginationService.ts:130-144 | a scan that ends under the version it began under returns the number of rows found; any other returns at most the rows it set out to count and cannot spoil the cache |
| `CacheProtocol.NoStaleTotal` | src/core/logs/PaginationService.ts:107-144 | in every state of every interleaving a cached total that would be served is the number of rows the present filter finds in the present data |
| `CacheProtocol.SameVersionSameRows` | src/core/logs/PaginationService.ts:12-56 | over every run versions never fall, and equal versions mean the same reader, buffer, mode and filter |
| `CacheProtocol.SameVersionReadsAlike` | src/core/logs/PaginationService.ts:12-56 | two states of one run with the same version answer every read alike |
| `CacheExample.OvertakenCount` | src/core/logs/PaginationService.ts:130-144 | a scan overtaken by a reload that returns 1, where the old data give 2 and the new give 0 |
| `CacheExample.OneLetterPasses` | src/core/logs/PaginationService.ts:394-411 | a one-letter message passes the filter of that letter, so rows and filters for the overtaken scan exist |
| `FilterLanguage.Unique` | src/webviewers/log-viewer/react/components/FilterDialog.tsx:112-122 | the loop keeps the first of each non-empty token, in order |
| `FilterLanguage.SerializeGroups` | src/webviewers/log-viewer/react/components/FilterDialog.tsx:110-122 | the loop prints the groups as the printing function does |
| `FilterLanguage.ParseIsClean` | src/webviewers/log-viewer/react/components/FilterDialog.tsx:94-109 | parsed groups are not empty and their tokens hold no white space and no comma |
| `FilterLanguage.ParseOfSerialize` | src/webviewers/log-viewer/react/components/FilterDialog.tsx:94-122 | parsing what was printed gives the groups without duplicates and empty groups, if and only if every non-empty token is free of white space and commas |
| `FilterLanguage.SpacedTokenIsSplit` | src/webviewers/log-viewer/react/components/FilterDialog.tsx:94-122 | a token with a space does not come back |
| `FilterLanguage.NormalizeTwice` | src/webviewers/log-viewer/react/components/FilterDialog.tsx:124-129 | normalising twice is normalising once |
| `FilterMatching.ParseLower` | src/core/logs/PaginationService.ts:364-377 | lower-casing before parsing is parsing and then lower-casing every token |
| `FilterMatching.NormalizeKeepsMatches` | src/core/logs/PaginationService.ts:378-392 | for every text and query the matcher accepts the normalised query if and only if it accepts the query |
| `FilterMatching.ParseOfTrim` | src/core/logs/PaginationService.ts:343-354 | trimming changes no parsed group |
| `FilterMatching.HostFilterMeaning` | src/core/logs/PaginationService.ts:343-411 | the filter the host keeps accepts exactly the lines whose every field matches the filter as typed |
| `FilterMatching.NormalizeAllKeepsMeaning` | src/webviewers/log-viewer/react/components/FilterDialog.tsx:124-129 | normalising all fields changes nothing of what the host accepts |
| `RefreshCoalescing.RefreshCoalescer.Schedule` | src/extension/panels/explorerBridge.ts:48-63 | marks a scope in flight as pending; else replaces its timer |
| `RefreshCoalescing.RefreshCoalescer.OnTimer` | src/extension/panels/explorerBridge.ts:58-61 | drops the timer and executes its scope |
| `RefreshCoalescing.RefreshCoalescer.OnDue` | src/extension/panels/explorerBridge.ts:79-79 | takes one due re-run and executes its scope |
| `RefreshCoalescing.RefreshCoalescer.Execute` | src/extension/panels/explorerBridge.ts:65-72 | starts a run, or marks the scope as pending if one is in flight |
| `RefreshCoalescing.RefreshCoalescer.OnSettled` | src/extension/panels/explorerBridge.ts:74-81 | ends the run, and queues one more if the scope is pending |
| `RefreshCoalescing.AlwaysSafe` | src/extension/panels/explorerBridge.ts:42-83 | in every run no scope has two runs in flight, pending scopes are in flight, and the timer map matches the armed timers one to one |
| `RefreshCoalescing.NoRefreshIsLost` | src/extension/panels/explorerBridge.ts:42-83 | after every schedule, until a run of its scope starts, a timer is armed, a re-run is due, or the scope is pending and in flight |
| `RefreshCoalescing.QuietMeansServed` | src/extension/panels/explorerBridge.ts:42-83 | when nothing is outstanding for a scope, every schedule of it was followed by the start of a run |
| `RefreshCoalescing.StartsAreScheduled` | src/extension/panels/explorerBridge.ts:42-83 | at every moment the runs started and those owed are no more than the refreshes scheduled |
| `Messaging.Bridge.CleanupPending` | src/extension/messaging/bridge.ts:31-39 | removes a pending request, its timer, and its key if that is still its own |
| `Messaging.Bridge.Settle` | src/extension/messaging/bridge.ts:48-67 | settles a pending request and removes it; lets any other be |
| `Messaging.Bridge.OnReply` | src/extension/messaging/bridge.ts:48-67 | an ack resolves and an error rejects the request it answers, if that is pending |
| `Messaging.Bridge.Request` | src/extension/messaging/bridge.ts:100-145 | a new number, the older holder of the key rejected, and the request pending under a timer unless posting threw |
| `Messaging.Bridge.OnTimer` | src/extension/messaging/bridge.ts:132-140 | settles the timer's request as timed out |
| `Messaging.Bridge.OnUnload` | src/extension/messaging/bridge.ts:77-84 | settles everything pending once, in whatever order, and leaves no timer |
| `Messaging.RequestKeeps` | src/extension/messaging/bridge.ts:100-145 | a request, posted or not, keeps maps, timers and the account of requests consistent |
| `Messaging.FiringSettles` | src/extension/messaging/bridge.ts:132-140 | a timer that fires always finds its request pending |
| `Messaging.AlwaysFine` | src/extension/messaging/bridge.ts:27-145 | in every run maps and timers agree, and every request is exactly one of pending, settled once, never posted |
| `Messaging.OnePerKey` | src/extension/messaging/bridge.ts:104-120 | two pending requests never share an abort key |
| `Messaging.LeavesWhenSettled` | src/extension/messaging/bridge.ts:31-84 | a request stops being pending exactly when it is settled, and was not settled before |
| `Messaging.OutcomesStand` | src/extension/messaging/bridge.ts:42-145 | an outcome never changes over the rest of a run |
| `Messaging.KeysLeadToPending` | src/extension/messaging/bridge.ts:104-145 | after any events an abort key leads to nothing pending if and only if the last request with that key could not be posted |
| `Messaging.StaleKey` | src/extension/messaging/bridge.ts:119-123 | a run of one request whose posting throws, after which its key leads to nothing pending |

## Left out

- Aborting: abort signals end loops early; the laws of warmup, merge and session are those of runs that are not aborted.
- Merging in rising order (`reverse`): its input files are not corrected, so no order follows for its output.
- Files and streams: reads and writes succeed, JSON and text encodings are the identity on entries, and reads are cut on characters, not inside a multi-byte one; a retried rename only skips part numbers.
- Line parsing: whether a line has a header, its text, its time and its type key are functions given from outside, as are the rotation number of a file name and the fields the matcher sees; full text is always preserved.
- Orders on names (`localeCompare` and `<`) are any total order that tells different names apart.
- Numbers: times are whole milliseconds and not clipped to the range of a date; thresholds are whole numbers up to the greatest safe integer; hours of a jump are rounded exactly.
- Lower-casing is any function of whole texts that neither makes nor removes white space or commas and does not look across them; that leaves out only U+FEFF beside a sigma, which is white space to a filter and invisible to the rule for the final sigma.
- Shared entry objects: rows are values, so numbering a row does not also renumber the entry in the buffer.
- Progress, stage and metric callbacks, log output and the counters behind summaries.
- Session.Serve: the buffer that a failed count seeds before a disk merge is not shown in between, since the merge replaces it; pages pushed to the viewer during a session are not modelled.
- CacheProtocol.ResumeIsSafe: of the value returned by a scan during which the version moved on only the bound is claimed, since the code counts windows of two data sets in it.
- Page responses carry a version read after an await, so freshness of single responses is not claimed.
- Real-time sessions, connections, transfer, git and host control, parser compilation, the viewer's components: plumbing over foreign tools or display code.
- Small data holders such as the hybrid buffer and the indexed store would only add easy members.
