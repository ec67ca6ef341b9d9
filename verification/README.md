# DbKeeperNet upgrade engine: a verified model

This project models how DbKeeperNet upgrades a database, and proves what an application may
rely on when upgrades throw, die half-way, are repeated, or race with each other.

* `MarkStore` – the three linked tables that record executed steps, the find-or-insert that writes
  them, and the join that reads them.
* `TextLines`, `ScriptSplitter`, `SplitterLaws` – reading lines (CR, LF, CRLF), splitting scripts at
  separator lines, the chain of splitter objects that the builder links, and the laws of splitting.
* `SeparatorLines`, `ChainLaws` – which lines separate, spelled out, and what whole chains of splitters make of a
  text.
* `Migration`, `Preconditions` – the deserialised scripts, the settings, and precondition evaluation.
* `UpgradeMachine` – one updater as a small-step machine over the shared database. A move is one action
  that other sessions see as atomic. A history is what one session lives through: its own moves, and what
  it finds others and the clock to have done.
* `Protocol`, `Driver` – the order in which resources may be used, the database as one session sees it
  (committed and pending content, and its history), and the transaction provider with its single slot.
* `DatabaseLocks`, `StepExecution`, `DatabaseUpdates` – the code of the upgrade as methods over these
  objects, from the lease lock up to `ExecuteUpgrade`. Every driver call may throw, the process may die
  in it, and rivals may change the database before it. How the calls end is a sequence that the environment has
  chosen and no method can change; what rivals may do is a relation. Both are parameters. Each method
  is proved to keep a complete history: every change of the database is a move of the machine at its
  place, or lies within that relation.
* `History`, `RepeatedRuns`, `RepeatBound`, `Interleaving`, `Idempotence` – theorems about the machine: crash
  consistency over any sequence of cut-off runs and the bound on repeats, mutual exclusion and exactly-once
  execution over any interleaving, idempotence of a finished upgrade.
* `UpgradeEffects` – exactly when an upgrade of a given database can mark, execute or change anything. `LateMarks` and
  `InstalledTables` are about scripts where a second upgrade does, and about steps that it leaves alone.
* `ScriptMeaning`, `DatabaseSteps` – what the elements of the scripts come to in a run: which step is which, what its
  own preconditions, the defaults and the mark flag decide, and which alternatives run as which commands.
* `Sessions` – histories of several sessions that can be woven into one order of events are a run of the
  interleaved machine, and every such run is woven from histories.
* `EndToEnd` – the upgrade method with those theorems as its contract: alone, twice in a row, and any number
  of upgrades together.

The database content is the mark tables plus the history (`log`) of all other committed commands, each
with the key of the step that issued it. A theorem about the log is thus about every database
whose state is computed from the commands it was given.

## What holds, in short

A step runs in one transaction per alternative statement, and its mark in yet another one. So the
engine executes steps at least once, and the bound on repeats is exact: the committed log is a sequence of
attempts at steps in script order, one complete attempt for each newly marked step and at most one
further, possibly partial, attempt per aborted run (`RepeatedRuns.CrashConsistency`,
`Interleaving.AtLeastOnce`); and for every number of aborted runs there are runs that repeat the same step in full
that often (`RepeatBound.EachAbortRepeats`). Without aborts it is exactly once, also across processes, as long as
every lock holder leaves before its lease ends (`Interleaving.ExactlyOnce`). `EndToEnd.UpgradeTogether` states this
of the upgrade method itself, called any number of times by sessions that share a database.

These theorems are about plain scripts (`History.Plain`): distinct keys, each step guarded by exactly
`StepNotExecuted`, marked, and accepted by one handler; steps in front of them are allowed whose precondition is
not met on any content that attempts at the script can make of the database, such as the installer's table
creation on an installed database (`InstalledTables.InstallerStepIsNeverMet`).

Properties that fail without a condition come with the exact condition or a witness:

* The splitter round trip holds if and only if no printed CR is followed by an empty line that ends with LF
  (`SplitterLaws.RoundTrip`).
* A rival enters the locked region exactly when the holder is overdue (`Interleaving.RivalEntersIffOverdue`),
  and because releasing asks for no owner, a late release then lets a third updater in beside the rival
  (`Interleaving.LateReleaseLetsThirdIn`).
* With the lock table present but its row missing (a first installation that died between the installer's last
  two steps) no updater ever gets the lock (the last clause of `DatabaseUpdates.ExecuteUpgrade`).
* The order of preconditions matters exactly if one of them raises and another one is not met
  (`Preconditions.OrderMattersIff`); `DbTableNotFound` without its parameter, beside one that asks for an existing
  table, is such an input (`Preconditions.MissingParameterBesideUnmet`).
* A second upgrade leaves the mark tables as they are, however it goes, exactly if on the content that the first one
  left no step is newly marked: none that is to be marked, has a handler, is not recorded, and is met when its turn
  comes, the steps before it having neither failed nor newly marked anything. Likewise it executes nothing exactly if
  no handled step is met on that content before one that raises or lacks preconditions, and changes nothing exactly if
  no such step has an effect or a new mark (`UpgradeEffects.SecondUpgradeIff`). For scripts of database steps the
  condition is computed step by step (`UpgradeEffects.DatabaseStepsMarkNothingIff`). A step under a condition that a
  later step makes come true is marked by the second upgrade although the first one finished
  (`LateMarks.SecondUpgradeMarksMore`); a recorded step with `StepNotExecuted` among its preconditions never is
  (`Idempotence.RecordedStaysUnmet`).

Where the documentation and the code differ, the model follows the code:

* `demos/README.md` says that each upgrade step is executed in a separate transaction; the code uses one per
  alternative statement and a separate one for the mark.
* `ISqlScriptSplitter` asks for the last command to be terminated; the code silently drops lines after the last
  separator (`SplitterLaws.Conservation`), and keeps them only if there is no separator at all.
* A precondition without a name deserialises to `NotExecuted`, while the built-in handler claims
  `StepNotExecuted`; an unclaimed name counts as met. So a step under a nameless precondition is executed by every
  upgrade (`Idempotence.NamelessIsAlwaysMet`, `Idempotence.AlwaysExecuted`).

## Assumptions

* The database is transactional: a transaction's changes become visible together at its commit, and other
  sessions do not change the content while it is open (they may take or release the lock row). A commit that throws
  ends the transaction, and may or may not have taken effect. A rollback that throws may leave the transaction open
  on the connection.
* The ids that the database gives to new rows are not in use. Names are compared as exact strings.
* Custom and extension steps leave the transaction slot as they found it and do not touch the mark tables. Otherwise
  they may commit what they like; a predicate says what, for those theorems that ask for it.
* Time is one integer clock in seconds that never goes back, shared by all sessions.

## Model

| member | source | states |
|---|---|---|
| MarkStore.IsExecutedMeaning | DbKeeperNet.Extensions.SQLite/Checkers/SQLiteUpdateStepExecutedChecker.cs:15-43 | The join count is positive exactly when some chain of an assembly, a version and a step row spells out the key. |
| MarkStore.OneRowPerKey | DbKeeperNet.Extensions.SQLite/Checkers/SQLiteUpdateStepExecutedChecker.cs:20-25 | In valid tables the join has one row for a recorded key and none for any other. |
| MarkStore.MarkAddsKey | DbKeeperNet.Extensions.SQLite/SQLiteUpdateStepExecutedMarker.cs:51-80 | One marking, whatever fresh ids it is given, adds exactly its key and keeps ids unique, names unique per parent, and parents present. |
| MarkStore.MarkLeavesNoOrphans | DbKeeperNet.Extensions.Pgsql/PgsqlUpdateStepExecutedMarker.cs:52-83 | A complete marking leaves no assembly without a version and no version without a step. |
| MarkStore.MarkTwiceIsMarkOnce | DbKeeperNet.Extensions.SQLite/SQLiteUpdateStepExecutedMarker.cs:51-80 | Marking a recorded key changes no table. |
| MarkStore.StoreIsASetOfKeys | DbKeeperNet.Extensions.SQLite/SQLiteUpdateStepExecutedMarker.cs:27-81 | From empty tables, after any markings, the checker says yes to exactly the keys that were marked. |
| TextLines.StringReader.ReadLine | DbKeeperNet.Engine/SqlScriptSplitter.cs:56-58 | One call takes exactly the first of the remaining lines, and reports the end only when nothing is left. |
| TextLines.LinesOfPrint | DbKeeperNet.Engine/SqlScriptSplitter.cs:54-58 | For every mix of CR, LF and CRLF, reading printed lines gives those whose LF is not swallowed by a CR before it. |
| TextLines.LinesRoundTrip | DbKeeperNet.Engine/SqlScriptSplitter.cs:54-58 | Reading gives back every printed line if and only if no neighbours merge into a CRLF. |
| TextLines.UniformTerminatorsDoNotMerge | DbKeeperNet.Engine/SqlScriptSplitter.cs:56-56 | Terminators all CR, or any mix of LF and CRLF, never merge. |
| TextLines.LinesOfUnlines | DbKeeperNet.Engine/SqlScriptSplitter.cs:70-70 | What AppendLine wrote is read back line by line. |
| ScriptSplitter.ChainHeads | DbKeeperNet.Engine/SqlScriptSplitter.cs:106-119 | A do-nothing head of a chain adds nothing; a lone splitter is just its own split. |
| ScriptSplitter.Splitter.FinalizeProcessing | DbKeeperNet.Engine/SqlScriptSplitter.cs:81-94 | A finished command becomes an output, or goes through the rest of the chain. |
| ScriptSplitter.Splitter.SetNext | DbKeeperNet.Engine/SqlScriptSplitter.cs:96-99 | Replaces the link to the next splitter and nothing else. |
| ScriptSplitter.Splitter.SplitAtSeparators | DbKeeperNet.Engine/SqlScriptSplitter.cs:47-79 | The reader loop yields, in order, the rest of the chain's outputs for each group of lines closed by a separator, or for the whole script if there is none; which lines separate is told by `SeparatorLines`. |
| ScriptSplitter.Splitter.SplitScript | DbKeeperNet.Engine/SqlScriptSplitter.cs:102-125 | On every finite chain splitting terminates, with the chain's outputs for both kinds of splitter. |
| ScriptSplitter.MsSqlScriptSplitter.SplitScript | DbKeeperNet.Extensions.SqlServer/MsSqlScriptSplitter.cs:48-78 | The stand-alone loop for exact GO lines yields the commands of the script. |
| ScriptSplitter.DbKeeperNetBuilder.AddScriptSplitter | DbKeeperNet.Engine/Configuration/DbKeeperNetBuilder.cs:38-52 | The chain from the head stays free of cycles; a registration keeps the head and replaces everything behind it. |
| ScriptSplitter.ChainIsFirstAndLast | DbKeeperNet.Engine/Configuration/DbKeeperNetBuilder.cs:42-49 | After any registrations the chain is the first splitter and the last one; those in between are unreachable. |
| ScriptSplitter.ConfigureAndSplit | DbKeeperNet.Engine/Configuration/DbKeeperNetBuilder.cs:38-58 | Registering any splitters and then splitting terminates, with the last splitter applied to the outputs of the first. |
| SplitterLaws.Conservation | DbKeeperNet.Engine/SqlScriptSplitter.cs:54-77 | The outputs' lines are the script's non-separator lines up to the last separator, all if there is none; there is one output per separator line, at least one. |
| SplitterLaws.Idempotence | DbKeeperNet.Extensions.SqlServer/MsSqlScriptSplitter.cs:50-77 | Splitting any output again yields exactly that output, for both separator dialects. |
| SplitterLaws.RoundTrip | DbKeeperNet.Engine/SqlScriptSplitter.cs:47-79 | Splitting printed blocks gives the blocks back with normalised line ends if and only if no printed neighbours merge. |
| SplitterLaws.UniformRoundTrip | DbKeeperNet.Engine/SqlScriptSplitter.cs:47-79 | The round trip holds for terminators all CR and for any mix of LF and CRLF. |
| SeparatorLines.AngleGoLines | DbKeeperNet.Engine/SqlScriptSplitter.cs:60-60 | A line separates if and only if it is `<GO>` with white characters only, or none, before and after it. |
| SeparatorLines.PaddedRoundTrip | DbKeeperNet.Engine/SqlScriptSplitter.cs:47-79 | Commands printed with `<GO>` lines, indented and followed by any spaces and tabs, come back if and only if no printed neighbours merge. |
| SeparatorLines.ExactRoundTrip | DbKeeperNet.Extensions.SqlServer/MsSqlScriptSplitter.cs:48-78 | The same for lines that are exactly `GO`; any other line belongs to a command. |
| ChainLaws.ChainConservation | DbKeeperNet.Engine/SqlScriptSplitter.cs:81-94 | For every chain, the commands that come out hold exactly the lines that are left when each separator in turn has divided what the ones before it left. |
| ChainLaws.KeptMeaning | DbKeeperNet.Engine/SqlScriptSplitter.cs:54-77 | These lines come in the order of the script, and no separator of the chain is among them. |
| ChainLaws.OneSeparator | DbKeeperNet.Engine/SqlScriptSplitter.cs:102-125 | A chain with one separator, and any number of splitters that do nothing, leaves exactly the non-separator lines up to the last separator line, all if there is none. |
| ChainLaws.TwoSeparators | DbKeeperNet.Engine/SqlScriptSplitter.cs:81-94 | With two separators in a row the second one divides each output of the first one, in order. |
| ChainLaws.CleanTextIsOneCommand | DbKeeperNet.Engine/SqlScriptSplitter.cs:74-77 | A text without separator lines is one command: the text itself if the chain has no separator, its lines with the platform's line ends if it has. |
| Preconditions.IsMetIsConjunction | DbKeeperNet.Engine/PreconditionService.cs:17-46 | If no handler raises, the preconditions are met exactly when each single verdict is; an unclaimed name is met. |
| Preconditions.ClaimerIsFirst | DbKeeperNet.Engine/PreconditionService.cs:33-41 | The first handler of a name claims it, whichever handlers of that name come after it. |
| Preconditions.IsMetIgnoresOrder | DbKeeperNet.Engine/PreconditionService.cs:23-43 | With distinct handler names the result is the same under every permutation of handlers and of preconditions, unless one precondition raises and another one is not met. |
| Preconditions.OrderMattersIff | DbKeeperNet.Engine/PreconditionService.cs:23-28 | For all handlers and preconditions: every order gives the same result if and only if it is not the case that one precondition raises and one is not met. |
| Preconditions.MissingParameterBesideUnmet | DbKeeperNet.Engine/Preconditions/TableNotFoundPrecondition.cs:38-49 | A DbTableNotFound without its parameter or with an empty one, beside one for an existing table, fails the step or skips it depending on their order. |
| Idempotence.GuardVerdict | DbKeeperNet.Engine/Preconditions/UpdateStepNotExecutedPrecondition.cs:35-48 | The built-in guard says no exactly for recorded keys. |
| Protocol.LegalTraceIsBalanced | DbKeeperNet.Engine/DatabaseUpdater.cs:41-56 | In a legal trace the locks, streams and transactions taken are those given back, plus what is still held. |
| Protocol.LegalTraceRespectsTransactions | DbKeeperNet.Engine/DatabaseServiceTransactionProvider.cs:27-73 | In a legal trace preconditions are evaluated, and lock and streams used, only without an active transaction; the provider is asked for a transaction, and ends one, only while one is active; at most one stream is open. |
| Protocol.NothingStartsAfterFault | DbKeeperNet.Engine/DatabaseUpdater.cs:41-63 | In a legal trace nothing is locked, opened, queried, begun or used after the first call that threw in an upgrade; what is held is given back, and that is all. |
| Driver.TransactionProvider.BeginTransaction | DbKeeperNet.Engine/DatabaseServiceTransactionProvider.cs:34-41 | Fills an empty slot with a transaction on the current content; if it throws, the slot is as before. |
| Driver.TransactionProvider.CommitTransaction | DbKeeperNet.Engine/DatabaseServiceTransactionProvider.cs:43-52 | Publishes the pending content if it returns, leaves the slot empty even if the driver throws, in which case the content may have been published or not, and throws untouched on an empty slot. |
| Driver.TransactionProvider.RollbackTransaction | DbKeeperNet.Engine/DatabaseServiceTransactionProvider.cs:54-65 | Never changes committed content, leaves the slot empty even if the driver throws, and throws untouched on an empty slot. |
| Driver.TransactionProvider.GetTransaction | DbKeeperNet.Engine/DatabaseServiceTransactionProvider.cs:27-32 | Hands a transaction out exactly while the slot is filled; the call itself breaks the protocol otherwise. |
| Driver.TransactionProvider.Dispose | DbKeeperNet.Engine/DatabaseServiceTransactionProvider.cs:75-81 | Rolls an open transaction back and does nothing otherwise. |
| DatabaseLocks.DatabaseLock.IsSupported | DbKeeperNet.Extensions.SQLite/SQLiteDatabaseLock.cs:17-26 | Supported means that the lock table exists. |
| DatabaseLocks.DatabaseLock.Acquire | DbKeeperNet.Extensions.SQLite/SQLiteDatabaseLock.cs:28-48 | Takes the row, for the given minutes, exactly if its expiration is strictly in the past; a call that throws may still have taken it. |
| DatabaseLocks.DatabaseLock.Release | DbKeeperNet.Extensions.Pgsql/PgsqlDatabaseLock.cs:50-62 | If the call returns, the row, if there is one, lies strictly in the past, whatever it held and whoever holds the lock; a call that throws may still have done so. |
| UpgradeMachine.AcquiredMeaning | DbKeeperNet.Extensions.SQLite/SQLiteDatabaseLock.cs:32-32 | A row that has expired is set that many minutes ahead; one that has not, every other row and the content stay. |
| UpgradeMachine.ReleasedMeaning | DbKeeperNet.Extensions.SQLite/SQLiteDatabaseLock.cs:54-54 | The row is set one minute back, whatever it held; every other row and the content stay. |
| DatabaseLocks.RetriesOutlastLease | DbKeeperNet.Engine/DatabaseLockService.cs:28-32 | An attempt that fails after n retries of at least five seconds is within the bound computed from the expiration. |
| DatabaseLocks.LeaseStaysBounded | DbKeeperNet.Extensions.SQLite/SQLiteDatabaseLock.cs:28-64 | Whoever has taken the lock or changed its row, by a call that returned or threw, the row never expires later than five minutes from now. |
| DatabaseLocks.DeadHolderBound | DbKeeperNet.Engine/DatabaseLockService.cs:26-32 | After a run that took the lock or changed its row, wherever it died or threw, at most 61 attempts fail. |
| DatabaseLocks.DatabaseLockService.AcquireLock | DbKeeperNet.Engine/DatabaseLockService.cs:18-44 | Waiting takes the updater where the machine goes; with no rival the failed attempts stay within the bound; without a lock table it enters unlocked, without a lock row never. |
| DatabaseLocks.DatabaseLockService.ReleaseLock | DbKeeperNet.Engine/DatabaseLockService.cs:36-43 | Disposing releases the row if it was locked, so that it lies in the past if the call returned, and does nothing otherwise. |
| StepExecution.ExecuteCommand | DbKeeperNet.Engine/GenericDatabaseServiceCommandHandler.cs:16-25 | A command runs in the active transaction and changes the pending content only. |
| StepExecution.RunInTransaction | DbKeeperNet.Engine/UpdateStepHandlers/DbCommandStepHandler.cs:41-59 | One alternative is committed in full or not at all, as one move of the machine; whatever throws, the slot ends up empty. |
| StepExecution.ExecuteDbCommand | DbKeeperNet.Engine/UpdateStepHandlers/DbCommandStepHandler.cs:28-61 | The step commits a prefix of the applying alternatives, in order, each as one move of its history, and all of them on success; without rivals the committed content is the old one plus exactly these. Which alternatives apply, and as which commands, is told by `DatabaseSteps`. |
| DatabaseSteps.CompleteExecution | DbKeeperNet.Engine/UpdateStepHandlers/DbCommandStepHandler.cs:28-61 | A complete execution is one transaction for each alternative whose type the database handles or which is for all, in their order, and none for any other; the lines of its commands are the kept lines of that alternative's text. |
| DatabaseSteps.OneCleanAlternative | DbKeeperNet.Engine/UpdateStepHandlers/DbCommandStepHandler.cs:34-50 | With one alternative for this database, and no separator line in it, its text is the only command of the only transaction. |
| StepExecution.ExecuteTyped | DbKeeperNet.Engine/UpdateStepHandlers/CustomStepHandler.cs:15-41 | A custom or extension step may fail to be created, commits any number of transactions of its own choice, each in full or not at all, and may throw anywhere between. |
| StepExecution.MarkAsExecuted | DbKeeperNet.Extensions.SQLite/SQLiteUpdateStepExecutedMarker.cs:27-81 | If all its commands return, the pending tables are the old ones with the key marked; committed content is untouched. |
| StepExecution.TryToMark | DbKeeperNet.Engine/UpdateStepService.cs:43-53 | Begin, mark and commit get to the marked state exactly as one move of the machine, or not at all. |
| StepExecution.MarkInTransaction | DbKeeperNet.Engine/UpdateStepService.cs:41-60 | The mark is committed in a transaction of its own, or rolled back and the run fails with an empty slot, even if begin or rollback throws. |
| StepExecution.HandleStep | DbKeeperNet.Engine/UpdateStepService.cs:37-60 | First the handler's work, then the mark if the step wants one, as in the machine. |
| StepExecution.ExecuteStep | DbKeeperNet.Engine/UpdateStepService.cs:26-62 | Every accepting handler gets the step, in registration order; none may accept it at all. |
| DatabaseUpdates.CheckPrecondition | DbKeeperNet.Engine/PreconditionService.cs:31-43 | The verdict is the claimer's on the content it sees, without any transaction active; if the environment does not fail, the call throws exactly if the handler raises, so a precondition that is not met is no failure. |
| DatabaseUpdates.CheckPreconditions | DbKeeperNet.Engine/PreconditionService.cs:23-28 | With no rivals the answer is the evaluation of all preconditions on one content, which stays as it is; if the environment does not fail either, it throws exactly if that evaluation raises. |
| DatabaseUpdates.RunStep | DbKeeperNet.Engine/DatabaseUpdater.cs:92-103 | A step is skipped or executed as in the machine; a step without own or default preconditions ends the run; if the environment does not fail, nothing but that and a raising precondition does. |
| DatabaseUpdates.RunScript | DbKeeperNet.Engine/DatabaseUpdater.cs:80-106 | The script's steps are run in order; at the first failure the run stops, and no precondition, transaction or step is begun after it; if the environment does not fail, a script that can be run is run to its end. |
| DatabaseUpdates.OpenStream | DbKeeperNet.Engine/UpdateScriptManager.cs:16-19 | A script is opened only when its turn comes, while no other one is open. |
| DatabaseUpdates.RunAndClose | DbKeeperNet.Engine/DatabaseUpdater.cs:47-54 | The script is closed again whether or not running it threw. |
| DatabaseUpdates.RunScripts | DbKeeperNet.Engine/DatabaseUpdater.cs:43-55 | The installer and all scripts run to the end, or the run stops at the first failure, and no further script is opened. |
| DatabaseUpdates.ExecuteUpgrade | DbKeeperNet.Engine/DatabaseUpdater.cs:35-64 | The history leads from the old database to the new one by legal moves and by what rivals may do, whatever throws or dies; the trace keeps the protocol, so nothing is begun after the first failure, and unless it died nothing is held any more; if no call fails, runnable scripts are upgraded to the end once the lock is acquired; an upgrade that succeeds, or fails for its scripts only, leaves a lock that it took free; without a lock row none succeeds. |
| ScriptMeaning.StepBecomesTask | DbKeeperNet.Engine/DatabaseUpdater.cs:80-124 | The i-th step of all, counted over scripts and updates, runs under its assembly name, version and id, with its own preconditions if it has any and the script's defaults if not, with its mark flag and its work. |
| ScriptMeaning.TaskComesFromStep | DbKeeperNet.Engine/DatabaseUpdater.cs:80-106 | Nothing else is run: whatever runs stands at a place in the scripts. |
| ScriptMeaning.GuardedByScript | DbKeeperNet.Engine/DatabaseUpdater.cs:107-124 | A step is executed once only, by being guarded and marked, exactly if it is to be marked and asks for StepNotExecuted alone, or asks for nothing under defaults that do. |
| ScriptMeaning.HandledByType | DbKeeperNet.Engine/UpdateStepHandlers/UpdateStepHandlerBase.cs:18-28 | A step is handled exactly if the database handler, or for a typed step the handler of its type, is registered. |
| ScriptMeaning.ForcedIsExecuted | DbKeeperNet.Engine/Preconditions/ForceExecutionPrecondition.cs:21-29 | A handled step whose own only precondition is ForceExecution is executed by every upgrade that succeeds, whatever the defaults of its script and whatever is recorded. |
| ScriptMeaning.EveryHandlerRuns | DbKeeperNet.Engine/UpdateStepService.cs:28-37 | An upgrade that succeeds has given each step that it executed to every handler that accepts it. |
| ScriptMeaning.MarkedKeys | DbKeeperNet.Engine/UpdateStepService.cs:41-53 | Wherever a run is cut off, the keys recorded are those recorded before and those of the marking steps it got past marking. |
| ScriptMeaning.FinishedMarks | DbKeeperNet.Engine/UpdateStepService.cs:41-53 | The keys that a successful upgrade adds are exactly assembly name, version and id of the steps that it executed and that ask to be marked. |
| ScriptMeaning.RunAndMarked | DbKeeperNet.Engine/UpdateStepService.cs:37-53 | Only handled steps are executed, and only executed steps are marked; an executed step is marked unless the run is still at it or has failed. |
| History.DatabaseStepIsFixed | DbKeeperNet.Engine/UpdateStepHandlers/DbCommandStepHandler.cs:28-61 | What a database step may have committed are the prefixes of its applying alternatives, and a complete execution is all of them. |
| History.MoveKeeps | DbKeeperNet.Engine/UpdateStepService.cs:37-59 | Every move keeps the log explained by attempts in script order and the marked steps a prefix of the script. |
| RepeatedRuns.CrashConsistency | DbKeeperNet.Engine/UpdateStepService.cs:37-59 | After any runs, each cut anywhere, the marked steps are a prefix of the script, and the attempts exceed the newly marked steps by at most the aborted runs. |
| RepeatedRuns.ExactlyOnceWithoutAborts | DbKeeperNet.Engine/UpdateStepService.cs:37-59 | Without aborted runs the log is that of one complete execution of each newly marked step, in order. |
| RepeatedRuns.MarkedStepsWereExecuted | DbKeeperNet.Engine/UpdateStepService.cs:37-48 | Behind every newly marked step there is a complete execution. |
| RepeatedRuns.TablesStaySound | DbKeeperNet.Engine/UpdateStepService.cs:43-59 | For every script and every sequence of runs, however cut, the committed mark tables stay valid and free of orphans, and lose no key. |
| Interleaving.TablesStaySoundTogether | DbKeeperNet.Engine/UpdateStepService.cs:43-59 | In every interleaving of updaters and restarts, with or without a lock, the committed mark tables stay valid and free of orphans, and lose no key. |
| RepeatedRuns.NothingAfterFailure | DbKeeperNet.Engine/DatabaseUpdater.cs:45-63 | A run that has failed changes nothing but the lock any more, and cannot end normally. |
| RepeatBound.EachAbortRepeats | DbKeeperNet.Engine/UpdateStepService.cs:37-48 | The bound is reached: for every n there are n aborted runs that each execute the same step in full and mark nothing. |
| Interleaving.MutualExclusion | DbKeeperNet.Extensions.SQLite/SQLiteDatabaseLock.cs:28-64 | If every holder leaves before its lease ends, at most one updater is inside, and the lock row holds its lease. |
| Interleaving.RivalEntersIffOverdue | DbKeeperNet.Extensions.SQLite/SQLiteDatabaseLock.cs:32-32 | A rival gets in exactly when the holder's lease is over; otherwise its attempt changes nothing. |
| Interleaving.LateReleaseLetsThirdIn | DbKeeperNet.Extensions.SQLite/SQLiteDatabaseLock.cs:50-64 | An overdue holder that releases late lets a third updater in beside one that is well within its lease. |
| Interleaving.ReleaseLetsNextIn | DbKeeperNet.Extensions.SQLite/SQLiteDatabaseLock.cs:28-64 | After a holder's release the row is free, whatever it held, and stays so; the next attempt of whoever it is gets in, with 300 seconds from then. |
| Interleaving.AtLeastOnce | DbKeeperNet.Engine/DatabaseUpdater.cs:41-56 | Across all updaters the attempts exceed the newly marked steps by at most one per abort, plus the one under way. |
| Interleaving.ExactlyOnce | DbKeeperNet.Engine/DatabaseUpdater.cs:41-56 | Without aborts the committed log is always a prefix of the log of complete executions of the script's steps, once each and in order; and all of it, with all steps marked, once any updater has finished. |
| Sessions.WovenIsRun | DbKeeperNet.Engine/DatabaseUpdater.cs:41-56 | Histories of sessions, woven so that what each finds changed is what the others and the clock did, are a run of the interleaved machine. |
| Sessions.RunIsWoven | DbKeeperNet.Engine/DatabaseUpdater.cs:41-56 | Conversely every run of updaters that start once is woven from histories of its own. |
| Sessions.TogetherOnce | DbKeeperNet.Engine/DatabaseUpdater.cs:41-56 | However woven, the log is one complete attempt per newly marked step and at most one more per upgrade that failed or died; exactly the missing steps, once each, if none did; all steps are marked if one succeeded. |
| Sessions.TogetherInOrder | DbKeeperNet.Engine/DatabaseUpdater.cs:41-56 | At every moment before something fails the committed log is a prefix of that of complete executions of the script's steps, once each and in order. |
| Idempotence.RunSettles | DbKeeperNet.Engine/DatabaseUpdater.cs:86-104 | A run that finishes leaves every guarded, and every always executed, marking step that some handler accepts marked, for any script. |
| Idempotence.AlwaysExecuted | DbKeeperNet.Engine/Preconditions/ForceExecutionPrecondition.cs:4-28 | Every upgrade that succeeds executes each handled step that is always met, as ForceExecution promises. |
| Idempotence.NamelessIsAlwaysMet | DbKeeperNet.Engine/Updates-1_0.cs:82-84 | Under the built-in handlers a step whose only precondition has no name is always met. |
| Idempotence.RecordedStaysUnmet | DbKeeperNet.Extensions.MsSqlMembershipAndRolesSetup/Setup.xml:13-20 | Once recorded, a step with StepNotExecuted among its preconditions is not met on anything the scripts make of the database, whatever its other preconditions are. |
| Idempotence.SecondUpgradeDoesNothing | DbKeeperNet.Engine/DatabaseUpdater.cs:86-104 | After a finished upgrade another one executes no guarded step and none that stays unmet, and leaves the mark tables alone if every step it may mark is recorded or stays unmet. |
| Idempotence.GuardedUpgradeIsIdempotent | DbKeeperNet.Engine/DatabaseUpdater.cs:86-104 | If every step is guarded, stays unmet or has no handler, the second upgrade leaves the content entirely as it is. |
| UpgradeEffects.MarksStayIff | DbKeeperNet.Engine/DatabaseUpdater.cs:86-104 | On any database with valid tables no run of an upgrade changes the mark tables if and only if there is no way in, or no step is newly marked in its turn; for every script, typed steps included. |
| UpgradeEffects.NothingRunsIff | DbKeeperNet.Engine/DatabaseUpdater.cs:86-104 | No run executes anything if and only if there is no way in, or no handled step is met on the content as it is before a step that raises or lacks preconditions. |
| UpgradeEffects.ContentStaysIff | DbKeeperNet.Engine/DatabaseUpdater.cs:86-104 | No run changes the content if and only if there is no way in, or no such step has an effect or a new mark. |
| UpgradeEffects.SecondUpgradeIff | DbKeeperNet.Engine/DatabaseUpdater.cs:86-104 | After an upgrade that finished, the three conditions on the content it left decide exactly whether a second one can mark, execute or change anything. |
| UpgradeEffects.DatabaseStepsMarkNothingIff | DbKeeperNet.Engine/DatabaseUpdater.cs:86-104 | For scripts of database steps the first condition is computed along the one content that each step finds in its turn. |
| UpgradeEffects.SettledMarksNothingNew | DbKeeperNet.Engine/DatabaseUpdater.cs:86-104 | It is enough for it that every step that may be marked is recorded or stays unmet. |
| LateMarks.SecondUpgradeMarksMore | DbKeeperNet.Engine/DatabaseUpdater.cs:86-104 | Where a marking step is met only after it was passed, the first upgrade finishes, leaves a step to be newly marked, and a second upgrade marks it. |
| LateMarks.MakeThenDropIsLate | DbKeeperNet.Engine/Preconditions/ForceExecutionPrecondition.cs:21-29 | Such a script with built-in preconditions: a step under DbTableNotFound, and after it a ForceExecution step that drops the table. |
| InstalledTables.InstallerStepIsNeverMet | DbKeeperNet.Extensions.SQLite/SQLiteDatabaseServiceInstall.xml:10-66 | The installer's table-creating steps, with a checker that answers from the database, are skipped on everything that attempts at the scripts make of an installed database, if no script drops the table. |
| InstalledTables.InstallerStepIsQuiet | DbKeeperNet.Extensions.SQLite/SQLiteDatabaseServiceInstall.xml:10-66 | Under the same condition the steps stay unmet, so a second upgrade leaves them alone. |
| EndToEnd.UpgradeAlone | DbKeeperNet.Engine/DatabaseUpdater.cs:35-64 | On success exactly the missing steps were executed, once each and in order, and all are marked, and the lock is free again; on failure at most one attempt more than marked. It succeeds if every call returns, the scripts can be run, and the lock is not kept from it for longer than its patience. |
| EndToEnd.LeavesLockFree | DbKeeperNet.Engine/DatabaseLockService.cs:36-43 | After an upgrade that succeeded with no rivals the lock is free if there is one, and keeps nobody waiting. |
| EndToEnd.UpgradeTwice | DbKeeperNet.Engine.Tests/EndToEndTestBase.cs:12-21 | Upgrading twice in a row: the second upgrade executes only steps that are neither guarded nor stay unmet; it marks nothing new, or changes nothing, under the exact conditions on the content between them. If every call returns and no precondition ever raises it succeeds again; if all steps are guarded it does, and changes nothing. |
| EndToEnd.UpgradeTogether | DbKeeperNet.Engine/DatabaseUpdater.cs:35-64 | Any number of ExecuteUpgrade calls by sessions of their own, with any rivals: however their histories are woven on one database under the lease discipline, each step was executed once, plus at most one attempt per call that failed or died, and all steps are marked if one call succeeded. |

## Left out

- DatabaseLocks.DatabaseLockService.AcquireLock: the retry loop has no end of its own; it is observed for a given number of failed attempts, after which the updater counts as still waiting.
- Database connections, command and parameter set-up, connection strings: the abstract driver stands for them.
- The SQL Server lock, marker and checker, whose logic is in stored procedures.
- XML and schema validation; the model starts from the deserialised tree. Statement texts and step lists that the schema requires are present; only the optional update list may be missing.
- Schema checkers and the other preconditions over them, as well as DbType: any function of the content may be plugged in as a handler. ForceExecution and DbTableNotFound are spelled out.
- ASP.NET membership and role handlers, and the reflection that creates custom steps.
- The MySQL and Firebird locks and markers, which have the shape of the SQLite and PostgreSQL ones.
- The effect of the installer's own statements on the lock table: a first installation runs unlocked and is no part of the mutual exclusion claims.
- Null arguments of the services, logging, dependency injection, the command-line tool, and the wall-clock details of the SQL dialects.
- Splitters that an application writes itself; a chain has do-nothing and separator splitters only.
