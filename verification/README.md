# Verified models of SQLite 4

A Dafny model of the most intricate parts of SQLite 4 and of its storage test harness, with proofs of
what those parts are for. `dafny verify dfyconfig.toml` checks everything.

## What is modelled

**The LR parser engine** (`LrTables`, `LrMachine`, `LrRuns`, `LrParser`, `LrExample`). The driver that
the Lemon template generates, over arbitrary compressed tables with default, fallback and wildcard
lookup. `ValidTables` is a check of the tables alone: every state is annotated with the symbols that
must be on top of the stack and the states that may lie under them, and every slot and default has to
agree with the annotation. For every table set that passes, every run on every sequence of terminals is
sound: what is accepted has a derivation from the start symbol whose leaves are the tokens shifted, up
to fallback, wildcard and terminal classes. A value on the abstract stack is a derivation tree;
`LrParser.Parser` is the object with its array, index and error counter, for arbitrary semantic actions,
and refines that machine. `LrExample` is a table set that passes the check,
with an accepted run.

**Source spans** (`SqlSpans`, `SqlExample`). The reduce cases of the SQL grammar that set a token or an
`ExprSpan`. After every call of the parser each expression on its stack covers exactly the text from its
first to its last token.

**The checksum database** (`KeyOrder`, `KeyStore`, `ChecksumKeys`, `ChecksumDb`, `ChecksumClients`). Keys
grouped by powers of a fan-out, one checksum per group and level, writers that update one path to the
top, readers that verify one. In every interleaving of single-writer transactions and snapshot readers
no reader meets a mismatch.

**ANALYZE** (`Stat3Sampler`, `Stat3Accum`, `AnalyzeLoop`, `Stat3Load`). The generated loop over a sorted
index, the bounded sample accumulator it feeds, and the loader. Counts are true, at most a third of the
slots become periodic samples, and no dropped key beats a retained one. `Stat3Accum.Accumulator` is the
array with key buffers that move between slots.

**Crash simulation** (`CrashFiles`, `CrashVfs`). A file system that saves the old content of a sector on
its first write after a sync, and a power failure that leaves each saved sector new, old or garbage.

**Worker threads** (`WorkerThreads`, `CheckpointWait`). Client, worker and checkpointer with mutexes,
condition variables and two flags, one shared access per step, spurious wakeups included; and the wait of
the worker for the checkpointer, with exactly when it can end.

**Nested transactions** (`Savepoints`), **range scans and deletes** of four back ends (`BackEnds`), the
**tracking allocator** (`TrackedAllocator`), the **database fixer** (`DbFixer`), **ALTER TABLE text
rewriting** (`RenameText`) with **the tokenizer** it runs on (`SqlTokenizer`), and the **keyword index**
(`KeywordIndex`, with SQLite's own tables in `KeywordTables`, `KeywordChains` and `SqliteKeywords`).

## Where the code does not do what it documents

- `sql_begin` at a level that is open but below the current one, and `sql_commit` above the current one,
  leave a level counter that no longer fits the savepoints (`Savepoints.BeginTooLow`,
  `Savepoints.CommitTooHigh`). `sql_rollback` of a level that is not open fails and changes nothing, also
  where the documentation asks for a no-op (`Savepoints.RollbackFails`). `Savepoints.CallRefines` gives
  the exact condition for every call.
- The fixer is documented to bind all table references, but does not walk GROUP BY, ORDER BY and LIMIT
  (`DbFixer.OrderByIsSkipped`). `DbFixer.AllBoundIff`, `DbFixer.AllSrcBoundIff` and
  `DbFixer.AllStepsBoundIff` say exactly when all references end up bound.
- A truncation between crash preparation and crash is not tracked (`CrashVfs.TruncationIsLost`).
  `CrashVfs.TruncateOk` says exactly which truncations are harmless.
- A reader that is not in a transaction can see a mismatch (`ChecksumClients.DirtyReadFails`).
  `ChecksumClients.DirtyReadIff` says exactly when it does not.
- The tokenizer gives an exclamation mark at the end of a text the length 2, and the end itself the length
  1. The renaming functions step over the end on such a token (`SqlTokenizer.BangLeaves`), and
  `renameParentFunc` also on a text that ends in REFERENCES (`SqlTokenizer.ReferencesLeaves`).
  `SqlTokenizer.ParentLeavesIff` and `SqlTokenizer.NameLeavesIff` say exactly when they do.
- A worker that waits for its checkpointer never looks at the order to stop. When the checkpointer has
  failed, `mt_shutdown` does not return (`CheckpointWait.ShutdownHangs`); when it has found the database
  busy and sleeps, only a spurious wakeup helps (`CheckpointWait.BusyHangs`). `CheckpointWait.WaitEndsIff`
  says exactly when the wait can still end.

## Model

| member | source | states |
|---|---|---|
| `LrTables.ShiftActionSource` | lempar.c:393-448 | every action found is the default of the state or sits in a slot for a terminal that the token may be read as: itself, its fallback or the wildcard; an own slot wins |
| `LrTables.ShiftActionOk` | parse.c:1600-1655 | with valid tables a shift goes along a checked edge for a terminal the token stands for, a reduction is backed by what is on the stack, and the only other outcome is the error action |
| `LrMachine.PushInv` | parse.c:1717-1758 | a push along a checked edge keeps the stack invariant, whether it fits or overflows and empties the stack |
| `LrMachine.ReduceReady` | parse.c:3733-3745 | the top of the stack spells the right-hand side of the rule to reduce by, its trees form a derivation of the left-hand side, and the state under them has a legal goto |
| `LrMachine.ReduceInv` | parse.c:3736-3761 | a reduction keeps the invariant, and leads to acceptance only when nothing but the bottom entry remains and the tree derives the start symbol |
| `LrRuns.DecideOk` | parse.c:3883-3900 | in a reachable state no lookup goes out of range, no assertion of the code fails, and what is done next is backed by the tables |
| `LrRuns.StepInv` | parse.c:3883-3989 | every turn of the driver loop keeps the stack-path invariant |
| `LrRuns.ParserSound` | parse.c:3838-3989 | for all valid tables and all sequences of calls, every acceptance has a derivation tree of the start symbol whose yield is the sequence of tokens shifted |
| `LrRuns.StackIsDerived` | parse.c:3838-3989 | after every run the stack is within its depth, its values are derivations that together spell the tokens shifted, and the next turn cannot fail on any token |
| `LrRuns.ValuesAreConserved` | parse.c:1535-1580 | over every run each value pushed is on the stack, was consumed by one reduction or was destroyed once; when the stack is empty nothing is left over |
| `LrRuns.MoreTurns` | parse.c:3883-3989 | a loop that was not cut off does the same with any larger number of turns |
| `LrRuns.ReportsAreSpaced` | parse.c:3957-3977 | with recovery, in every run three tokens are shifted between two error reports |
| `LrRuns.CleanPrefix` | lempar.c:713-865 | while no token is rejected and the stack does not overflow, nothing is accepted before the end marker and exactly the tokens fed have been shifted |
| `LrRuns.WholeInputDerives` | lempar.c:713-865 | an input read without error and then accepted is, as a whole, the yield of the one accepted derivation |
| `LrParser.PopOneThenAll` | parse.c:1535-1555 | popping entries one by one destroys what popping all of them destroys |
| `LrParser.Parser.constructor` | lempar.c:275-291 | a fresh parser represents the fresh machine |
| `LrParser.Parser.PopParserStack` | parse.c:1535-1555 | one entry leaves the stack and its stored value is passed to the destructor once; the values passed so far are those of the trees in the ledger |
| `LrParser.Parser.PopEverything` | parse.c:1567-1580 | the loop empties the stack and destroys every value on it |
| `LrParser.Parser.Shift` | parse.c:1695-1758 | the array push, or the overflow that empties the stack without storing the new value, is the push of the machine |
| `LrParser.Parser.TopValues` | parse.c:2100-2140 | an action sees the values of the trees of its right-hand side, left to right |
| `LrParser.Parser.GoOn` | parse.c:3736-3761 | push or acceptance after a goto; the in-place write of the NDEBUG build does the same as the checked push |
| `LrParser.Parser.ReduceBy` | parse.c:3733-3765 | action, rewind, goto and push or accept are the reduction of the machine |
| `LrParser.Parser.RejectToken` | parse.c:3902-3977 | a token without an action is counted and dropped, and reported unless an earlier error suppresses the report; with recovery the end marker empties the stack |
| `LrParser.Parser.Act` | parse.c:3883-3985 | the body of the loop is one step of the machine |
| `LrParser.Parser.Turn` | parse.c:3883-3985 | under the invariant one turn never halts and keeps the invariant |
| `LrParser.Parser.Drive` | parse.c:3883-3989 | the loop is the iteration of turns until the token is done or the stack is empty |
| `LrParser.Parser.Parse` | parse.c:3838-3989 | one call, with the initialisation of an empty stack, is one call of the machine; yyidx stays between -1 and the depth |
| `LrExample.ExampleIsValid` | lempar.c:393-483 | a table set with a fallback and a wildcard passes the validity check |
| `LrExample.ExampleAccepts` | lempar.c:713-865 | a run on those tables, with one token read by fallback and one by wildcard and reductions of one, two and three entries, is accepted and meets every hypothesis of the theorem on whole inputs |
| `SqlSpans.SpanCases` | parse.c:2907-3257 | each expression rule takes its start from its first symbol and its end from its last one, or from the last but one where the last is an absent database name |
| `SqlSpans.ExprCaseExact` | parse.c:81-152 | a span helper or the assignments of a case cover exactly the tokens of the whole right-hand side |
| `SqlSpans.NameCaseExact` | parse.c:2291-2311 | name rules hand the one token of the name on |
| `SqlSpans.DbnmCaseExact` | parse.c:2687-2690 | an absent database name is null, a present one is its second token |
| `SqlSpans.ValueIsExact` | parse.c:2907-3257 | for every derivation of an expression, term, name or database name the actions compute its source text |
| `SqlSpans.SpansAreExact` | parse.c:3602-3625 | in every reachable state the span of each expression on the stack is the text from the first to the last token of its yield |
| `SqlSpans.StoredValue` | parse.c:2100-2140 | the values that the parser object stores are those values |
| `SqlSpans.StoredSpan` | parse.c:2100-2140 | a slot of the stack that holds an expression spans the text from the first to the last token of its yield |
| `SqlSpans.ParseTokens` | src/tokenize.c:386-470 | a new parser object that gets any sequence of tokens does what the machine does, and after every call each slot of its array that holds an expression spans its text |
| `SqlExample.SpanExample` | parse.c:2907-2926 | tables that pass the check and meet what the spans need, with a run that leaves an expression on the stack |
| `ChecksumKeys.AlignmentNests` | lsm-test/lsmtest5.c:161-167 | the aligned start of a key one level down lies between those of a group's first and last key exactly when the key is in the group |
| `ChecksumKeys.ScanCovers` | lsm-test/lsmtest5.c:161-170 | as key strings too: an entry of the level below is in the scanned interval exactly when its key is in the group, and no entry of any other level is |
| `ChecksumKeys.FormatKeyInjective` | lsm-test/lsmtest5.c:79-93 | two formatted keys are equal exactly when level and group are |
| `ChecksumKeys.PaddedOrder` | lsm-test/lsmtest5.c:86-91 | zero-padded numbers sort as numbers |
| `ChecksumDb.MaxLevelIsLeast` | lsm-test/lsmtest5.c:108-115 | the top level is the lowest one whose single group holds every key |
| `ChecksumDb.ComputeMaxLevel` | lsm-test/lsmtest5.c:108-115 | the loop computes that level |
| `ChecksumDb.AddToCksum` | lsm-test/lsmtest5.c:117-135 | the loop folds a value into the checksum modulo 2^32 |
| `ChecksumDb.WriteKeepsHierarchy` | lsm-test/lsmtest5.c:204-238 | a write of one pair and the checksums above it keeps every stored checksum of every group equal to that of its children |
| `ChecksumDb.WriteKeepsOrder` | lsm-test/lsmtest5.c:226-235 | those writes keep the store in key order |
| `ChecksumDb.ConsistentVerifies` | lsm-test/lsmtest5.c:188-200 | in such a database every level of every key verifies |
| `ChecksumDb.TestDb.ComputeCksum` | lsm-test/lsmtest5.c:142-174 | the scan callback loop computes the checksum of the group's children |
| `ChecksumDb.TestDb.ReadOperation` | lsm-test/lsmtest5.c:176-202 | a read succeeds exactly when every level verifies, and always in a consistent database |
| `ChecksumDb.TestDb.WriteOperation` | lsm-test/lsmtest5.c:204-238 | the level-by-level loop writes the whole path and keeps the hierarchy and the order |
| `ChecksumClients.CommitInv` | lsm-test/lsmtest5.c:219-238 | a commit publishes the database after one more whole write, and open snapshots keep their view |
| `ChecksumClients.NextInv` | lsm-test/lsmtest5.c:503-569 | every step of every client keeps: the committed database is the replay of the committed writes and consistent, each snapshot is a replay of a prefix of them, at most one writer |
| `ChecksumClients.NoReaderFails` | lsm-test/lsmtest5.c:503-569 | in every interleaving no reader sees a mismatch and the committed database is that of the writes one after the other |
| `ChecksumClients.DirtyReadIff` | lsm-test/lsmtest5.c:188-238 | for every consistent database, written pair, stage of the write and read key: a reader without a transaction succeeds exactly when its key is in another group of the next level, or that group's checksum comes out as zero or as the one stored before |
| `ChecksumClients.DirtyReadFails` | lsm-test/lsmtest5.c:188-200 | an input on which it fails: the first write of a pair with a nonzero checksum to an empty database |
| `Stat3Sampler.LeastPlain` | src/analyze.c:339-359 | the slot found is the first non-periodic one that beats no other, and there is none exactly when all are periodic |
| `Stat3Sampler.StepBound` | src/analyze.c:250 | the distance between periodic samples leaves room for at most mxSample/3 of them |
| `Stat3Sampler.MultiplesIsQuotient` | src/analyze.c:298-299 | the quotient that decides about periodic samples, written without division, is that of the code |
| `Stat3Sampler.CrossingCounts` | src/analyze.c:298-299 | each periodic push uses up one multiple of that distance |
| `Stat3Sampler.FullIsPlain` | src/analyze.c:308-319 | the slot that a full array gives up is never periodic |
| `Stat3Sampler.PushBest` | src/analyze.c:296-307 | after a push no dropped key is periodic or beats a retained non-periodic one, and nothing is dropped while there is room |
| `Stat3Sampler.PushConserves` | src/analyze.c:296-335 | what was pushed is what is retained plus what was dropped |
| `Stat3Sampler.PushInv` | src/analyze.c:276-362 | a push of the next run keeps order, non-overlapping row ranges, rising ranks, the periodic bound and the choice of the best keys |
| `Stat3Sampler.AlwaysReady` | src/analyze.c:338-345 | for pushes in row order the search for a new minimum never leaves the array |
| `Stat3Accum.Squeeze` | src/analyze.c:312 | the in-place move closes the gap and touches nothing behind the used part |
| `Stat3Accum.FindMin` | src/analyze.c:338-359 | the two loops find the slot to give up next |
| `Stat3Accum.Accumulator.constructor` | src/analyze.c:227-253 | a new accumulator is empty with the chosen distance |
| `Stat3Accum.Accumulator.TakeSlot` | src/analyze.c:308-322 | a full array gives its worst slot up, and its key buffer goes to the last slot; buffers stay pairwise distinct |
| `Stat3Accum.Accumulator.FillSlot` | src/analyze.c:324-335 | the key is copied into a buffer that is large enough and belongs to no other slot |
| `Stat3Accum.Accumulator.PushKey` | src/analyze.c:276-362 | the in-place push does what the sampler says |
| `AnalyzeLoop.RunsAreTrue` | src/analyze.c:555-605 | on a sorted index there is exactly one run per distinct key, with the true numbers of equal, smaller and distinct smaller keys, and the runs count every row |
| `AnalyzeLoop.VisitRow` | src/analyze.c:569-594 | one turn of the generated loop either lengthens the open run or pushes it |
| `AnalyzeLoop.Analyze` | src/analyze.c:524-605 | the generated program pushes exactly the runs, in order, the last one after the loop, and nothing for an empty index |
| `AnalyzeLoop.AnalyzeIsFaithful` | src/analyze.c:524-605 | for every sorted index: what is pushed is exactly the runs, in order; retained samples have true counts and rise, at most a third are periodic and none of those is lost, every key is retained or was dropped as one that beats no retained one, and nothing is dropped while there is room |
| `AnalyzeLoop.StatisticsCover` | src/analyze.c:524-605 | samples lie within the index, and there is one unless it is empty |
| `Stat3Load.Get` | src/analyze.c:388-410 | the n-th sample, or null past the end |
| `Stat3Load.Emit` | src/analyze.c:607-622 | the output loop stores exactly the retained samples |
| `Stat3Load.SumEqBound` | src/analyze.c:971-973 | the rows of earlier samples never exceed the rows before a later one |
| `Stat3Load.Sub64ExactIff` | src/analyze.c:972-973 | the unsigned subtraction gives the difference exactly when the rows of earlier samples do not exceed the rows before the last one |
| `Stat3Load.Average` | src/analyze.c:969-976 | for all rows the estimate in unsigned 64-bit arithmetic, at least 1; for rows that fit it is the exact mean |
| `Stat3Load.Load` | src/analyze.c:938-985 | samples come back unchanged and their keys fit, one behind the other, in the space computed from their lengths |
| `Stat3Load.AnalyzeAndLoad` | src/analyze.c:886-990 | from a sorted index to the loaded index object: the samples survive, nothing wraps around and the estimate is the exact mean |
| `CrashFiles.WriteSpares` | lsm-test/lsmtest_tdb3.c:203-204 | a write changes only the sectors from iFirst to iLast |
| `CrashFiles.WriteOk` | lsm-test/lsmtest_tdb3.c:197-227 | a write keeps: a saved sector holds the content at the last sync, any other sector still has it, and exactly the touched sectors are saved |
| `CrashFiles.SyncOk` | lsm-test/lsmtest_tdb3.c:268-273 | a sync starts afresh |
| `CrashFiles.CrashOutcome` | lsm-test/lsmtest_tdb3.c:396-414 | the loop leaves each saved sector as written, as saved or garbage, and other sectors alone |
| `CrashFiles.CrashTheorem` | lsm-test/lsmtest_tdb3.c:382-422 | after a crash each sector is new, last-synced or garbage, and untouched ones are intact |
| `CrashVfs.NextInv` | lsm-test/lsmtest_tdb3.c:190-298 | every call keeps both files tracked |
| `CrashVfs.PowerFailure` | lsm-test/lsmtest_tdb3.c:250-266 | in every run whose truncations are harmless, whenever the power fails, each sector of both files comes out that way |
| `CrashVfs.CrashedIsFrozen` | lsm-test/lsmtest_tdb3.c:195-298 | after a crash no write, sync or truncation changes anything |
| `CrashVfs.TruncateOk` | lsm-test/lsmtest_tdb3.c:293-298 | tracking survives a truncation exactly when it cuts only zeros and sectors that are saved |
| `CrashVfs.TruncationIsLost` | lsm-test/lsmtest_tdb3.c:293-298 | a truncation that loses an untouched sector |
| `CrashVfs.TestVfs.PrepareSyncCrash` | lsm-test/lsmtest_tdb3.c:1079-1086 | sets the countdown and starts tracking |
| `CrashVfs.TestVfs.SaveSectors` | lsm-test/lsmtest_tdb3.c:197-227 | grows the sector array in steps of 64 and saves the sectors that have no saved content yet |
| `CrashVfs.TestVfs.WriteData` | lsm-test/lsmtest_tdb3.c:190-246 | the whole new state of a write, or an I/O error and no change after a crash |
| `CrashVfs.TestVfs.TruncateData` | lsm-test/lsmtest_tdb3.c:293-298 | the whole new state of a truncation |
| `CrashVfs.TestVfs.CrashOne` | lsm-test/lsmtest_tdb3.c:400-411 | the three-way choice with its fall-through |
| `CrashVfs.TestVfs.CrashFile` | lsm-test/lsmtest_tdb3.c:396-416 | the loop over one file's sectors releases each saved one |
| `CrashVfs.TestVfs.DoSystemCrash` | lsm-test/lsmtest_tdb3.c:382-422 | both files crash, with one sequence of seeds |
| `CrashVfs.TestVfs.CrashNow` | lsm-test/lsmtest_tdb3.c:1059-1065 | an explicit crash |
| `CrashVfs.TestVfs.SyncData` | lsm-test/lsmtest_tdb3.c:250-291 | countdown, crash at its end, release of the saved sectors otherwise |
| `WorkerThreads.OwnInv` | lsm-test/lsmtest_tdb3.c:1132-1183 | each step of worker_main keeps the invariant of its worker |
| `WorkerThreads.ClientSignalInv` | lsm-test/lsmtest_tdb3.c:1121-1127 | so does each action of a signal |
| `WorkerThreads.ClientStopInv` | lsm-test/lsmtest_tdb3.c:1186-1207 | so does each action of a stop |
| `WorkerThreads.NextInv` | lsm-test/lsmtest_tdb3.c:1121-1214 | so does every step of the system |
| `WorkerThreads.NoLostWakeup` | lsm-test/lsmtest_tdb3.c:1171-1179 | in every reachable state a worker that waits although it was signalled or told to stop is about to be woken, and one that waits otherwise has begun a pass after every signal |
| `WorkerThreads.MutexesAreUsedWell` | lsm-test/lsmtest_tdb3.c:1186-1214 | in every reachable state no mutex has two holders and none is used after it was destroyed |
| `WorkerThreads.CallsAreAnswered` | lsm-test/lsmtest_tdb3.c:1137-1180 | in every interleaving, from every reachable state: after at most 12 steps of its own, and 6 more for each pass that wrote, a worker has started a pass after every signal sent before, or has exited, and it has exited if it had been told to stop; a poll that finds a backlog is not a step |
| `WorkerThreads.NeverStuck` | lsm-test/lsmtest_tdb3.c:1121-1207 | in every reachable state a worker that has a call to answer can go on, or waits for the checkpointer to end a backlog, or the thread that holds the mutex it needs can go on |
| `CheckpointWait.HangsForEver` | lsm-test/lsmtest_tdb3.c:512-530 | with a backlog and a checkpointer that cannot come to a pass, the worker is in the wait after every run in which lsm_info does not fail, and a client that joins it still does |
| `CheckpointWait.Approach` | lsm-test/lsmtest_tdb3.c:1137-1180 | a checkpointer that can come to a pass has a run to one, and after it the worker has a run out of the wait |
| `CheckpointWait.WaitEndsIff` | lsm-test/lsmtest_tdb3.c:512-530 | from every reachable state in which the worker waits, some run without an error of lsm_info takes it out of the wait exactly when there is no backlog or the checkpointer can come to a pass, with or without spurious wakeups |
| `CheckpointWait.NeverAnswered` | lsm-test/lsmtest_tdb3.c:1153-1165 | otherwise no such run answers an open call or lets the join return |
| `CheckpointWait.ShutdownHangs` | lsm-test/lsmtest_tdb3.c:1186-1214 | a run to a state in which the checkpointer has failed, the worker has been told to stop and waits for it, and the client waits in the join |
| `CheckpointWait.BusyHangs` | lsm-test/lsmtest_tdb3.c:1143-1179 | a run without an error to a state in which the checkpointer has found the database busy and sleeps, and the worker waits for it |
| `Savepoints.SetPointsMatch` | lsm-test/lsmtest_tdb.c:560-565 | the loop sets exactly the missing savepoints |
| `Savepoints.CallRefines` | lsm-test/lsmtest_tdb.c:544-617 | a call succeeds and leaves what is documented exactly when its level is in range |
| `Savepoints.BeginTooLow` | lsm-test/lsmtest_tdb.c:560-569 | a begin at an open level below the current one leaves a state that fits no documented one |
| `Savepoints.CommitTooHigh` | lsm-test/lsmtest_tdb.c:583-592 | so does a commit above the current level |
| `Savepoints.RollbackFails` | lsm-test/lsmtest_tdb.c:607-613 | a rollback of a level that is not open fails and changes nothing |
| `Savepoints.RunRefines` | lsm-test/lsmtest_tdb.h:66-98 | for every sequence of calls in range and arbitrary changes of rows in between, the savepoints are exactly x1 to x(n-1) and the rows match the documented stack of snapshots |
| `Savepoints.RollbackUndoes` | lsm-test/lsmtest_tdb.h:87-98 | after any calls, open one more level, do anything that leaves it open, roll it back: rows, savepoints and counter of the database are those from its opening |
| `Savepoints.SqlDb.SqlBegin` | lsm-test/lsmtest_tdb.c:544-570 | the statements executed, the counter and the result |
| `Savepoints.SqlDb.SqlCommit` | lsm-test/lsmtest_tdb.c:572-593 | the statements executed, the counter and the result |
| `Savepoints.SqlDb.SqlRollback` | lsm-test/lsmtest_tdb.c:595-617 | the statements executed, the counter and the result |
| `BackEnds.MemcmpOrder` | lsm-test/lsmtest_tdb.c:156-160 | comparing the common length and then the lengths is the key order |
| `BackEnds.BtScan` | lsm-test/lsmtest_tdb4.c:482-553 | delivers exactly the entries of the closed interval, in order or reversed |
| `BackEnds.LsmScan` | lsm-test/lsmtest_tdb3.c:631-687 | the same |
| `BackEnds.LevelDbSeekBack` | lsm-test/lsmtest_tdb.c:125-142 | the last entry not above a key, by a forward seek and a step back |
| `BackEnds.LevelDbScan` | lsm-test/lsmtest_tdb.c:105-177 | the same as the other scans |
| `BackEnds.SqlScan` | lsm-test/lsmtest_tdb.c:513-542 | the statement picked by the absent bounds selects the same |
| `BackEnds.SelectedIsScan` | lsm-test/lsmtest5.c:169-170 | this is the scan that the checksum database relies on |
| `BackEnds.BtDb.MinTransaction` | lsm-test/lsmtest_tdb4.c:338-351 | raises the transaction level if it is too low |
| `BackEnds.BtDb.RestoreTransaction` | lsm-test/lsmtest_tdb4.c:352-363 | lowers it to where it was, keeping the changes after success and undoing them after an error |
| `BackEnds.BtDb.SeekAbove` | lsm-test/lsmtest_tdb4.c:406-421 | the first entry above a key, by a seek that may stop on the key itself |
| `BackEnds.BtDb.DeleteRange` | lsm-test/lsmtest_tdb4.c:383-433 | ends with the transaction level restored, having removed exactly the entries strictly between the keys, or on an error nothing outside them, and nothing at all when it opened the transaction itself |
| `TrackedAllocator.CountdownTheorem` | lsm-test/lsmtest_mem.c:118-128 | a countdown of k makes exactly the k-th enabled attempt fail, and all later enabled ones when it persists |
| `TrackedAllocator.TmGlobal.MallocOom` | lsm-test/lsmtest_mem.c:228-242 | sets the countdown |
| `TrackedAllocator.TmGlobal.MallocOomEnable` | lsm-test/lsmtest_mem.c:244-249 | sets the enable flag and nothing else |
| `TrackedAllocator.TmGlobal.Attempt` | lsm-test/lsmtest_mem.c:106-178 | the object fails exactly the attempts that the countdown theorem names, whatever attempts came before |
| `TrackedAllocator.TmGlobal.PushFront` | lsm-test/lsmtest_mem.c:128-137 | both chains of links run through the new list |
| `TrackedAllocator.TmGlobal.Malloc` | lsm-test/lsmtest_mem.c:106-178 | a new block in front of the list, or null and an unchanged list exactly when the countdown says so; the bytes of other blocks are untouched |
| `TrackedAllocator.TmGlobal.Unlink` | lsm-test/lsmtest_mem.c:190-200 | both chains pass by the block; none of the assertions fails |
| `TrackedAllocator.TmGlobal.Free` | lsm-test/lsmtest_mem.c:180-212 | exactly that block leaves the list, null is ignored |
| `TrackedAllocator.TmGlobal.Realloc` | lsm-test/lsmtest_mem.c:214-226 | a failed attempt leaves the old block listed and its bytes intact; otherwise the new block has as much of them as fits |
| `TrackedAllocator.TmGlobal.MallocCheck` | lsm-test/lsmtest_mem.c:251-268 | the walk reports the number and the total size of the outstanding blocks |
| `DbFixer.WalkSucceeds` | src/attach.c:412-437 | the walk succeeds exactly when no reference on its way names another database, and otherwise the error names such a one |
| `DbFixer.WalkBinds` | src/attach.c:396-411 | after success every reference on the way names the database |
| `DbFixer.WalkKeeps` | src/attach.c:424-431 | names that were set are unchanged and only references on the way get one, also when the walk fails |
| `DbFixer.WalkIdempotent` | src/attach.c:396-411 | a second walk changes nothing |
| `DbFixer.AllBoundIff` | src/attach.c:396-411 | after success all references of a SELECT are bound exactly when those in clauses that are not walked were |
| `DbFixer.AllSrcBoundIff` | src/attach.c:412-437 | the same for a FROM clause |
| `DbFixer.AllStepsBoundIff` | src/attach.c:495-512 | the same for the steps of a trigger |
| `DbFixer.OrderByIsSkipped` | src/attach.c:439-459 | a sub-select in ORDER BY that stays unbound |
| `DbFixer.Fixer.FixSrcList` | src/attach.c:412-437 | the loop walks the entries in order |
| `DbFixer.Fixer.FixSelect` | src/attach.c:439-459 | the loop walks a compound SELECT, stopping at the first error |
| `DbFixer.Fixer.FixExpr` | src/attach.c:460-477 | the loop walks an expression down its left operands |
| `DbFixer.Fixer.FixExprList` | src/attach.c:478-492 | the loop walks a list |
| `DbFixer.Fixer.FixTriggerStep` | src/attach.c:495-512 | the loop walks the steps of a trigger |
| `RenameText.ParentsAreMapped` | src/alter.c:120-144 | what the rewriting yields is the token-wise map that replaces exactly the first token that is not a space after each REFERENCES, if it is the old name |
| `RenameText.RenameParent` | src/alter.c:102-151 | the loop with its partial output yields that text; when the text ends after a REFERENCES and the end has no length, the empty text counts as the parent; otherwise the loop goes behind the text |
| `RenameText.LeavesIff` | src/alter.c:120-144 | the loop goes behind the text exactly when it comes to a token that reaches over the end, or a REFERENCES waits at the end and the end has a length |
| `RenameText.RenameNext` | src/alter.c:123-142 | one parent: skip spaces, compare, replace or keep, or the end of the text, or a step over it |
| `RenameText.RenameTable` | src/alter.c:59-84 | the word before the first LP or USING is replaced; without one there is no result, or the loop goes behind the text |
| `RenameText.DistanceIsTwo` | src/alter.c:200-216 | the distance counter is 2 exactly after one word that follows a DOT or ON |
| `RenameText.RenameTrigger` | src/alter.c:182-224 | the word between a DOT or ON and the first WHEN, FOR or BEGIN so placed is replaced; without one there is no result, or the loop goes behind the text |
| `RenameText.RenamedWhenFound` | src/alter.c:182-224 | there is a result exactly when such a word exists, and the first one decides; without one the loop goes behind the text exactly when it comes to a token that reaches over the end |
| `SqlTokenizer.GetToken` | src/tokenize.c:111-375 | the loops give the kind and the length of the token that a text begins with, as the rules for spaces, comments, strings, numbers, variables, blobs, words and operators define them |
| `SqlTokenizer.TokenFits` | src/tokenize.c:111-375 | no token is empty, and the only text that is shorter than its token is an exclamation mark |
| `SqlTokenizer.SqliteLexes` | src/tokenize.c:111-375 | the tokenizer meets what the renaming functions ask of it, for every text |
| `SqlTokenizer.ParentLeavesIff` | src/alter.c:120-144 | with it renameParentFunc goes behind the text exactly when the text ends in an exclamation mark that is a token, or before the parent of a REFERENCES |
| `SqlTokenizer.NameLeavesIff` | src/alter.c:59-84 | with it the other two do so exactly when the text ends in an exclamation mark that is a token and no word ends a table name |
| `SqlTokenizer.BangLeaves` | src/tokenize.c:200-208 | all three do so on the text of one exclamation mark |
| `SqlTokenizer.ReferencesLeaves` | src/alter.c:123-142 | renameParentFunc does so on the text REFERENCES |
| `KeywordIndex.SpelledIsOnChain` | keywordhash.h:132-138 | a keyword with the given spelling, in any case, is on the hash chain of that spelling |
| `KeywordIndex.KeywordCode` | keywordhash.h:131-262 | for every text and all valid tables the chain walk ends and gives the code that a search through all keywords gives |
| `KeywordIndex.SearchFinds` | keywordhash.h:131-262 | which is the code of a keyword with that spelling, or TK_ID when there is none |
| `SqliteKeywords.KeywordsAreValid` | keywordhash.h:26-131 | the tables of SQLite with their 120 keywords are valid: keywords lie in the packed text, chains descend, every keyword is on the chain of its own hash |
| `SqliteKeywords.SqliteKeywordCode` | keywordhash.h:131-266 | for every text the lookup in those tables gives what a search through the 120 keywords gives |

## Left out

- LrParser.Parser.Drive: the loop is cut off after a given number of turns, for every such number;
  `LrRuns.MoreTurns` shows that any number that is enough gives the same result, and that reductions
  always come to an end is not shown.
- LrParser.Parser.Parse: the same cut-off.
- Completeness of the parser, the contents of the generated SQL tables, the growing stack
  (`yyGrowStack`), the error-symbol variant of recovery, and actions that build syntax trees.
- SqlSpans.SpansAreExact: the grammar is a parameter that must have the listed rules for expressions,
  terms, names and database names, under their rule numbers; its other rules are free.
- ChecksumDb: the store is a list of entries in key order; parameters are such that key arithmetic stays
  within a 32-bit int, as the code assumes.
- ChecksumClients: a transaction of the store is one copy, published by the commit; delays and errors of
  the store are not modelled.
- Stat3Accum.Accumulator.PushKey: memory allocation does not fail, and counts are not limited to 64 bits.
- OP_AnalyzeKey and the sqlite_stat1 rows; the index is its sequence of left-most keys, and OP_Count
  returns its length.
- Stat3Load.Load: the rows of one index are consecutive, as the output loop stores them.
- CrashVfs: the real file never fails, and reads past its end deliver zeros. The pseudo-random source is
  a parameter.
- WorkerThreads: a call of lsm_work or of the checkpointer is one step with an arbitrary result, and the
  size of the backlog is one flag. That the scheduler lets every thread take steps is not part of the
  model, and neither are the waits of the client before it writes.
- WorkerThreads.MutexesAreUsedWell: a run begins when both threads have been started. The code starts the
  worker before it initialises the mutex of the checkpointer, which the worker may use before that.
- Savepoints: SQL statements are modelled by their effect on rows and savepoints; I/O errors are not.
- BackEnds: the stores are sorted sequences with cursors, and store operations do not fail, except
  deletions in the range delete.
- TrackedAllocator: the table of backtraces, and the mutex.
- DbFixer.Fixer.FixSrcList: references are numbers and their names entries of one map, so the update of a
  field inside a node is an update of that map.
- RenameText: the removal of quotes is a parameter.
- SqlTokenizer: kinds of tokens that the renaming functions do not ask for are one kind, a character of the
  text is one byte, and the build is the one for ASCII with all literals.
- KeywordIndex: the case map is that of ASCII letters, and character codes beyond are their own.
- ATTACH and DETACH, code generation of ALTER TABLE, the bt crash file system, back ends other than the
  four above, speed tests and command-line handling.
