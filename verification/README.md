# Cordova SQLite plugin: scheduler, wire format, worker callbacks

A model of the hard core of the plugin, and proofs of what it promises.

- **Scheduler and executor** (`www/SQLitePlugin.js`). `Scheduler` is the step function of one database name: the lock
  and its queue, the open state, every transaction object, the start ticks, the pending opens, the batches handed to
  native code, and a history log. Application code is not restricted: a callback is a *script*, the calls it makes and
  how it ends (returns, returns `false`, throws), and every event carries arbitrary scripts. `Protocol` accepts or
  rejects histories; `Invariant` and `Runs` prove that every run within the rules of use produces accepted histories;
  `Histories`, `RunHistories` and `Theorems` say what acceptance and the invariant mean: mutual exclusion, single
  release, FIFO, the statement grammar, no lost wakeup, final callbacks, read-only safety. `Lifecycle` and
  `OpenFailures` say exactly when opening, failing to open, closing and deleting cost something, and which rules of use
  suffice; `Counterexamples` has runs that lose each of these guarantees. `Transitions` writes out what a start, a reply
  and a call do, without the functions that compute it, and `Callbacks` says of every release which final callback
  follows it, by the request, or by the first `end` or `abort` of all the calls made.
- **Meaning.** `QueueModel` is the queue of the Web SQL Database document (section 4.3.2), which serves one statement at
  a time. `Refinement` and `RunRefinement` run it beside any run of the scheduler, whatever else happens in that run;
  `Applications` looks at one transaction left to itself, and `LevelOrder` at the order of execution. `Atomicity`
  replays a whole run on a database (`Storage`) and compares it with the transactions taken one after the other.
- **Objects** (`Plugin`). The source's objects, updated in place; each method does to the object graph exactly what the
  scheduler does to its value. `Plugin.RunEvents` takes a new database object through any sequence of events: it ends in
  the state of the model's run, so every theorem about runs is one about the objects.
- **Wire format** (`Wire`). The flat request list and its slices, the reply parser, and round trips of both. `Receiver`
  is the other end: a connection that reads the texts and obeys them does to the database what `Storage` says of the
  batch, and what arrives when a transaction starts is what was asked for.
- **Worker callbacks** (`AqWorker`, `www/aqworker.js`) and the **Android batch loop** (`AndroidBatch`).

## Assumptions

- One database name at a time. All shared entries (`openDBs`, `txLocks`) are keyed by the name, so handles of one name
  share the modelled state, and callbacks of other names' transactions appear as calls from outside.
- `MAX_SQL_CHUNK` is 0 (`www/SQLitePlugin.js:23`). A lock that does not exist yet reads as idle and empty.
- Native code answers each batch once, asynchronously, with one result per statement, and `exec` does not throw. The
  transport, JSON and URI encoding are lossless.
- A call that throws leaves the state as it is. A callback that the plugin calls synchronously inside an API call
  (`transaction` on a closed database, a refused statement of a read transaction) is flattened into the calling script.
- Rules of use. Calls may come at any time. Most theorems hold of every run without `misuse`, which is raised by two
  things only: `abort` on a multi-part transaction that has already failed (`Invariant.ActKeepsIff`), and an open failure
  that takes the lock away from a running transaction (`OpenFailures.ExclusionIff` says when one does). A throwing
  callback is never misuse. Rules that a caller can keep suffice (`Lifecycle.CarefulRun`): no such `abort`, no close or
  delete while an open is unanswered (its own error callback included), no delete while a transaction runs. Then no open
  failure meets a running transaction, and batches are outstanding on open databases only.
- Application SQL holds no transaction statements (`README.md:279`). In `Storage` `SELECT 1` does nothing, BEGIN fails
  inside an open transaction, and a statement does whatever the engine says. `RunRefinement` lets COMMIT succeed and
  starts from a connection with no open transaction; in `Atomicity` COMMIT and ROLLBACK may fail, and other replies are
  arbitrary, or, where it says so, truthful.

## What the code does otherwise than expected

- A paused transaction need not be unfinished. A multi-part transaction that failed keeps `canPause`; after its
  ROLLBACK it becomes `isPaused` although it is finalized. `end` on it is then harmless, but `abort` sends
  `INVALID STATEMENT` outside the lock. `Theorems.Paused`: it is finalized exactly if one of its batches failed.
- Mutual exclusion can be lost by a stale open failure: after a close, or a delete, and a reopen
  (`CloseWhileOpeningBreaksExclusion`, `DeleteBreaksExclusion`). Without a queue behind it the running transaction keeps
  the lock and loses its database (`StaleFailureClosesRunning`, `Lifecycle.DropsIff`).
- A failed COMMIT is not followed by a ROLLBACK (`Histories.Grammar`, case `CommitFailed`). The database transaction stays
  open. With truthful replies the next transactions cannot begin, and the first ROLLBACK that succeeds takes with it the
  failed transaction and all plain statements in between, although these were reported as successful
  (`Atomicity.LostTogether`).
- A transaction queued by the error callback of a transaction aborted in the queue is dropped without any callback
  (`OpenFailures.LostIff`). A throwing callback of that kind leaves its transaction on the queue: it can start later and
  report a second time (`OpenFailures.ToldAndQueuedIff`).
- A throwing open-success callback skips the wakeup (`Lifecycle.WakeupIff`).
- A throwing open-error callback leaves the name at INIT for good: no reply is due, `open` does nothing, and queued
  transactions neither start nor fail (`Lifecycle.StrandedIff`).
- A result column named `__proto__` is missing from the row object, unless an earlier one of that name was null
  (`Wire.RowCompleteIff`).
- An empty batch never completes: `waiting` would have to reach zero from zero (`Plugin.Database.Reply`). Within the
  rules no empty batch is sent (`Histories.OneBatchAtATime`).

## Model

| member | source | states |
|---|---|---|
| Invariant.ActKeeps | www/SQLitePlugin.js:395-444 | an allowed call, inside a callback or between events, keeps the invariant, and inside a callback it sends and logs nothing unless the lock holder was paused |
| Invariant.ActKeepsIff | www/SQLitePlugin.js:119-444 | the invariant survives a call exactly if the call is not an `abort` of a failed multi-part transaction; opening, closing and deleting are always allowed |
| Invariant.AbortBreaks | www/SQLitePlugin.js:433-444 | `abort` on a failed multi-part transaction sends a batch outside the protocol, or leaves a statement in a transaction that is over |
| Invariant.ConcludeReady | www/SQLitePlugin.js:677-733 | `$finish` and `$abort` of a locking transaction send one batch that the protocol allows, and nothing else is outstanding |
| Runs.PerformKeeps | www/SQLitePlugin.js:502-521 | whatever a callback calls while the plugin is in the middle of a reply, nothing is sent and the core of the invariant holds |
| Runs.ReplyKeeps | www/SQLitePlugin.js:495-536 | all handlers of one reply and its completion keep the invariant, for any results and any callbacks |
| Runs.TickKeeps | www/SQLitePlugin.js:170-190 | a start tick, with the transaction body it runs, keeps the invariant |
| Runs.StartKeeps | www/SQLitePlugin.js:378-393 | starting a transaction, also one whose body throws, keeps the invariant |
| Runs.OpenOkKeeps | www/SQLitePlugin.js:217-239 | a successful open, whatever its callback does, keeps the invariant |
| Runs.OpenFailKeeps | www/SQLitePlugin.js:240-249 | a failed open, aborting the queue while callbacks run and throw, also one that comes while a transaction runs, keeps the invariant unless it takes the lock away |
| Runs.AbortFromKeeps | www/SQLitePlugin.js:196-200 | the abort loop over the old queue keeps the invariant, whatever its callbacks call and whether or not one of them throws |
| Runs.EveryRun | www/SQLitePlugin.js:119-294 | after every run within the rules of use the invariant holds: history accepted, lock, queue, wire and every transaction's flags agree with it |
| Theorems.MutualExclusion | www/SQLitePlugin.js:184-187 | `inProgress` holds iff exactly one transaction, the last to start, has not released; releases follow starts one by one, starts in queue order |
| Theorems.Conservation | www/SQLitePlugin.js:119-204 | transactions that left the queue followed by the queue are all transactions ever created, each once, in order |
| Theorems.NeverStuck | www/SQLitePlugin.js:378-444 | the last transaction to start, if it has not released, either has the one outstanding batch, which is not empty, or is a multi-part transaction paused with nothing queued |
| Lifecycle.DropsIff | www/SQLitePlugin.js:240-248 | a running transaction that goes on loses its open database in a step iff a call made in the step, in any callback, is a delete, or a pending open fails and its callback returns |
| Lifecycle.CarefulRun | www/SQLitePlugin.js:206-294 | rules a caller can check suffice: then the invariant holds, no open failure meets a running transaction, and batches are outstanding on open databases only |
| Theorems.Paused | www/SQLitePlugin.js:409-444 | a paused transaction has nothing queued or outstanding; it is finalized exactly if one of its batches has failed, and otherwise it holds the lock |
| Theorems.EndFinishes | www/SQLitePlugin.js:416-431 | `end` on a paused transaction always takes the direct finish branch |
| Theorems.RollbackSendsPending | www/SQLitePlugin.js:677-704 | after a failing batch the next one is the statements pending after its last handler, and ROLLBACK |
| Theorems.SerialExecution | www/SQLitePlugin.js:170-190 | the history of a run is one contiguous segment per transaction in queue order, apart from callbacks of transactions still queued; each releases at most once and reports its end at most once |
| Theorems.NoLostWakeup | www/SQLitePlugin.js:119-238 | in every run without a throwing open-success callback, allowed or not, an open database with a free lock and a waiting transaction has a start tick pending |
| Lifecycle.WakeupIff | www/SQLitePlugin.js:217-239 | a throwing open-success callback loses the wakeup iff the database was not closed meanwhile, the lock is free, transactions wait, no tick is pending, and the callback neither queues one nor closes or deletes the database |
| OpenFailures.LostIff | www/SQLitePlugin.js:192-204 | a failing open drops a transaction without any callback iff the callbacks of the loop return and it is one of those they create, counted beforehand from open state, handlers and scripts |
| OpenFailures.LoopThrowsIff | www/SQLitePlugin.js:196-200 | the abort loop is left by an exception iff some callback it reaches throws, told from the handlers and scripts alone, with `end` and `abort` in earlier callbacks taken into account |
| OpenFailures.PlainCallbacks | www/SQLitePlugin.js:735-739 | for transactions that cannot pause: iff one of them has an error callback and that callback throws |
| OpenFailures.ToldAndQueuedIff | www/SQLitePlugin.js:192-204 | aborting the queue leaves a transaction that has been told of its failure on the queue iff such a callback throws |
| OpenFailures.ReportsOnce | www/SQLitePlugin.js:677-739 | over every run in which no abort loop is left by an exception, of the transaction-level callbacks of a transaction, in the queue or at its end, at most one runs, at most once |
| OpenFailures.ExclusionIff | www/SQLitePlugin.js:195-202 | an open failure breaks mutual exclusion iff a transaction runs, the queue it empties is not empty, and neither its callback nor an abort callback throws |
| Lifecycle.StrandedIff | www/SQLitePlugin.js:240-248 | a step leaves a name opening with no reply due iff it is the last pending open's failure with a throwing callback that has not closed the database |
| Theorems.FirstFailure | www/SQLitePlugin.js:502-521 | the recorded failure is the earliest statement whose success handler threw or whose failure was not answered with `false`; there is none iff no statement failed so |
| Theorems.FailureIsKept | www/SQLitePlugin.js:516-521 | a recorded failure is never replaced, and later handlers run as if there were none |
| Histories.Serial | www/SQLitePlugin.js:170-190 | in an accepted history entries of two transactions never interleave, and segments follow queue order, apart from callbacks of transactions still queued |
| Histories.RemovedInOrder | www/SQLitePlugin.js:184-204 | transactions leave the queue in creation order, each once, by start, abort or loss |
| Histories.ReleasesFollowStarts | www/SQLitePlugin.js:184-187 | starts are releases plus the current holder |
| Histories.EndsOnce | www/SQLitePlugin.js:677-733 | no transaction releases twice, none runs two final callbacks at its end |
| Histories.FinalReports | www/SQLitePlugin.js:677-733 | a final callback comes right after the release that it reports, with the right verdict |
| Histories.OneBatchAtATime | www/SQLitePlugin.js:495-536 | no batch is empty, and between two batches the first one has been completely dealt with |
| Histories.ReleasedGrammar | www/SQLitePlugin.js:369-375 | the statements of a released transaction are its opening, permitted statements, and for a locking one exactly one COMMIT or ROLLBACK at the end, as its release says |
| Histories.SuccessNeedsCommit | www/SQLitePlugin.js:706-733 | a locking transaction reports success only right after its COMMIT was answered with success |
| Histories.FailureRollsBack | www/SQLitePlugin.js:677-704 | a failed batch of a locking transaction is followed at once by one more: permitted statements and ROLLBACK |
| Histories.SettlingReleases | www/SQLitePlugin.js:683-696 | after a batch that ends in COMMIT or ROLLBACK the next thing to happen to the lock is its holder's release |
| Histories.CommitIsClean | www/SQLitePlugin.js:522-532 | COMMIT is sent alone, and only if no batch of its transaction has failed |
| Histories.ReadOnlyStaysReadOnly | www/SQLitePlugin.js:403-408 | in an accepted history a read transaction sends its `SELECT 1` and statements that do not match the modification pattern, nothing else |
| RunHistories.StartedAsItself | www/SQLitePlugin.js:184-187 | over every run, whatever is sent, answered or released belongs to a transaction that started, and is logged under its own request |
| RunHistories.GrammarOfRuns | www/SQLitePlugin.js:369-393 | over every run, every released transaction object obeys the statement grammar of its own request |
| RunHistories.ReadOnlyRuns | www/SQLitePlugin.js:162-168 | over every run, a `readTransaction` sends its `SELECT 1` and application statements in which no write verb stands at the beginning, whatever its callbacks queue; the plugin sends no BEGIN, COMMIT or ROLLBACK for it, only the application's own text can be one |
| RunHistories.NoWriteIsSent | www/SQLitePlugin.js:403-408 | over every run, no read transaction sends a text made of white space, one of the five write verbs in any letter case, a white-space character, and anything else |
| RunHistories.SuccessOfRuns | www/SQLitePlugin.js:712-717 | over every run, a success callback of a locking transaction follows a successful COMMIT reply that ends its statements |
| Transitions.HandlersAreCalls | www/SQLitePlugin.js:502-521 | the handlers of a batch amount to the calls of those that are called for, in order, whatever fails on the way |
| Transitions.PlainReply | www/SQLitePlugin.js:495-536 | the reply to any other batch: the calls of the handlers that are called for, in statement order, one verdict, and then exactly one of the next batch, a pause, COMMIT, ROLLBACK with the pending statements, or the release of a plain transaction with its callback |
| Transitions.SettlingReply | www/SQLitePlugin.js:677-733 | the reply to a batch that ends in COMMIT or ROLLBACK: the calls of the handlers before it, then the release, then the calls of the callback that is due, and nothing else |
| Transitions.BodyStarts | www/SQLitePlugin.js:378-393 | when `transaction` or `readTransaction` starts, its body makes its calls, and then all that is queued is sent; if it throws, the lock is given back and the error callback runs |
| Transitions.PluginStarts | www/SQLitePlugin.js:331-346 | when `executeSql`, `sqlBatch` or `beginTransaction` starts, one batch is sent: what was queued before and the statements asked for, in their order, the one of `executeSql` with both handlers, those of `sqlBatch` with none |
| Transitions.EndCommits | www/SQLitePlugin.js:416-431 | `end` on a transaction that can pause replaces both callbacks, and exactly if it is paused and has not failed hands over the one batch COMMIT |
| Callbacks.FinalsOfRuns | www/SQLitePlugin.js:677-733 | over every run, misused or not, the release of a `transaction`, `readTransaction` or `sqlBatch` is followed at once by its success callback iff one was given and the COMMIT, or the plain statements, succeeded, and by its error callback iff one was given and they did not; `executeSql` has neither |
| Callbacks.FinalsOfMultiParts | www/SQLitePlugin.js:677-733 | over every run, when the COMMIT or ROLLBACK of a multi-part transaction is answered its release is logged, and right behind it the success callback iff the COMMIT succeeded and the first `end` gave one, the error callback iff it did not and the first `end` or `abort`, or else `beginTransaction`, gave one |
| Callbacks.RunHears | www/SQLitePlugin.js:416-444 | over every run the callbacks of a transaction change as all the calls made since, in whatever callbacks, change them: the first `end` or `abort` on one that can still pause gives them, nothing else does |
| Statements.ModifiesIff | www/SQLitePlugin.js:11 | the pattern matches iff the text begins with white space, one of the five verbs in any letter case, and a white-space character |
| Counterexamples.ThrowingOpenLosesWakeup | www/SQLitePlugin.js:231-237 | a run that leaves an open, idle database with a waiting transaction and nothing pending |
| Counterexamples.MultiPartFails | www/SQLitePlugin.js:522-532 | a run that ends with a multi-part transaction paused and finalized |
| Counterexamples.LateAbortSendsOutsideLock | www/SQLitePlugin.js:433-444 | a run in which `abort` sends while another transaction holds the lock |
| Counterexamples.DeleteBreaksExclusion | www/SQLitePlugin.js:822-823 | a run without close in which delete and a failing reopen clear the lock under a running transaction |
| Counterexamples.CloseWhileOpeningBreaksExclusion | www/SQLitePlugin.js:267-294 | a run without delete in which close and reopen during an open let a stale failure clear the lock under a running transaction |
| Counterexamples.StaleFailureClosesRunning | www/SQLitePlugin.js:240-248 | a run without delete or misuse in which a stale failure leaves a running transaction's batch outstanding on a closed database |
| Counterexamples.AbortCallbackLosesTransaction | www/SQLitePlugin.js:196-202 | a run in which a transaction queued by an abort callback is dropped |
| Counterexamples.ThrowingAbortCallbackReportsTwice | www/SQLitePlugin.js:197-202 | a run within the rules in which a transaction that was told of its failure in the queue starts later and reports failure again |
| Counterexamples.ThrowingOpenErrorStrands | www/SQLitePlugin.js:243-247 | a run within the rules that leaves a queued transaction on a name that is opening for good |
| Refinement.OtherCall | www/SQLitePlugin.js:395-444 | a call that does not name a transaction leaves it as it is |
| Refinement.PerformHeeds | www/SQLitePlugin.js:395-444 | whatever a callback calls while a transaction goes on, the queue hears of the calls on that transaction, in order, and of no others |
| Refinement.Lockstep | www/SQLitePlugin.js:502-534 | the handlers of a batch, with any calls in them, meet a failure iff serving its statements one at a time does; otherwise both reach the same database, handler calls and pending statements |
| Refinement.AfterFailure | www/SQLitePlugin.js:516-521 | handlers after a recorded failure still run and keep that failure, and the transaction goes on until the last of them |
| Refinement.ReplyServes | www/SQLitePlugin.js:522-532 | one reply amounts to serving the outstanding batch statement by statement: the transaction goes on, pauses, commits or rolls back as the queue stands |
| Refinement.EndingReply | www/SQLitePlugin.js:677-733 | the reply to COMMIT, or to the pending statements with ROLLBACK, releases the transaction, whatever handlers still try |
| Applications.QueueEnds | www/SQLitePlugin.js:495-536 | a transaction left to itself: if the one-at-a-time queue ends, the batched run ends, alike |
| Applications.BatchesEnd | www/SQLitePlugin.js:495-536 | and if the batched run ends, the queue ends, alike |
| Applications.EndTogether | www/SQLitePlugin.js:446-536 | for every engine and every application within the rules, a locking transaction ends exactly if the queue ends, and then they end alike |
| RunRefinement.StartLevel | www/SQLitePlugin.js:378-384 | the tick that starts a locking transaction sends what was queued before and what its body, with any calls in it, queues (for bodies made by the plugin, `Transitions.PluginStarts` says what that is): what the queue begins with |
| RunRefinement.PerformPhase | www/SQLitePlugin.js:395-444 | calls from outside the transaction's handlers, also while it is paused, reach the queue exactly until it is finished |
| RunRefinement.StepLevel | www/SQLitePlugin.js:446-536 | every event, whether it concerns the transaction or not, keeps the run and the queue level: the same statements pending, COMMIT outstanding iff the queue is empty and closed, ROLLBACK iff it has failed |
| RunRefinement.BatchingRefinesQueue | www/SQLitePlugin.js:446-536 | for every engine and every run: from the start of a locking transaction (`transaction`, `sqlBatch` or multi-part) through all later events it stays level with the queue and ends alike: committed with the same database, statements and handler calls, or rolled back to the initial database with the same statements and handler calls up to the failure |
| LevelOrder.ServedIsWalk | www/SQLitePlugin.js:495-536 | serving a forest of statements first in, first out is its level-order walk |
| LevelOrder.ServesForest | www/SQLitePlugin.js:502-534 | the queue, with handlers that queue the children of their trees, executes the level-order walk, or a beginning of it if it fails |
| LevelOrder.ExecutesInLevelOrder | www/SQLitePlugin.js:446-536 | over runs, a committed locking transaction whose handlers do so has executed its opening, the level-order walk and COMMIT, however it came to be divided into batches |
| Atomicity.TracksAlways | www/SQLitePlugin.js:677-733 | at every point of a history the connection's database and saved copy are the serial schedule plus the holder's statements, also after failed COMMITs and ROLLBACKs |
| Atomicity.SerialAtomic | www/SQLitePlugin.js:119-190 | after every run, for any replies, whenever no transaction runs, the database is the serial fold of committed transactions and plain statements in queue order, followed by those left open by a failed COMMIT or ROLLBACK; rolled-back ones contribute nothing |
| Atomicity.StrictlySerial | www/SQLitePlugin.js:677-733 | with truthful replies a transaction counts by its own COMMIT alone, and a plain statement unless a transaction was left open; if one is left open, ROLLBACK brings exactly these back |
| Atomicity.CommitsAfterRollback | www/SQLitePlugin.js:719-726 | with truthful replies, after a failed COMMIT or ROLLBACK nothing commits until a ROLLBACK succeeds |
| Atomicity.LostTogether | www/SQLitePlugin.js:719-726 | what comes between a failed COMMIT and the next successful ROLLBACK, plain statements reported as successful included, is lost with it |
| Atomicity.EachForItself | www/SQLitePlugin.js:677-733 | if every COMMIT and ROLLBACK succeeds, every transaction counts, or does not, for itself |
| Plugin.Transaction.constructor | www/SQLitePlugin.js:349-376 | the new object's fields, with BEGIN or SELECT 1 already queued |
| Plugin.Transaction.Run | www/SQLitePlugin.js:495-536 | `executes` becomes one outstanding batch and is emptied; nothing else changes |
| Plugin.Transaction.ExecuteSql | www/SQLitePlugin.js:395-414 | refused when finalized or a write in a read transaction; otherwise queued, and sent at once if paused |
| Plugin.Transaction.End | www/SQLitePlugin.js:416-431 | the whole new state: callbacks replaced, and a paused transaction finished or sent |
| Plugin.Transaction.Abort | www/SQLitePlugin.js:433-444 | the whole new state: INVALID STATEMENT queued, and sent if paused |
| Plugin.Transaction.Release | www/SQLitePlugin.js:677-733 | the lock given back, one tick asked for, and right behind the release the success callback's entry iff COMMIT or the plain statements succeeded and there is one, the error callback's iff not and there is one |
| Plugin.Transaction.Conclude | www/SQLitePlugin.js:677-733 | once only: COMMIT, or the pending statements and ROLLBACK, handed over; or a plain transaction released, with the entry of the callback that is due |
| Plugin.Transaction.Start | www/SQLitePlugin.js:378-393 | runs the body and sends what is queued; a throwing body releases the lock and reports (`Transitions.BodyStarts` and `PluginStarts` write the result out) |
| Plugin.Database.AddTransaction | www/SQLitePlugin.js:119-136 | appended to the queue; a start tick iff the database is open |
| Plugin.Database.Open | www/SQLitePlugin.js:206-264 | one pending open, unless the name is known already |
| Plugin.Database.Close | www/SQLitePlugin.js:267-294 | refused while a transaction is in progress; the queue stays |
| Plugin.Database.TickRuns | www/SQLitePlugin.js:170-190 | starts the first queued transaction iff the database is open and the lock free |
| Plugin.Database.HandleStatementSuccess | www/SQLitePlugin.js:467-484 | the reply to COMMIT or ROLLBACK releases, and then runs the callback that is due; any other statement runs its success handler, if it has one; and whether an exception reaches the caller |
| Plugin.Database.HandleStatementFailure | www/SQLitePlugin.js:486-493 | an exception reaches the caller unless there is a handler and it returns exactly `false` |
| Plugin.Database.HandlerFor | www/SQLitePlugin.js:502-521 | runs one handler and records the first exception |
| Plugin.Database.BatchDone | www/SQLitePlugin.js:522-532 | abort, next batch, pause or finish, in this order of preference (`Transitions.PlainReply` writes the result out) |
| Plugin.Database.HandleAll | www/SQLitePlugin.js:495-536 | all handlers in order, then the completion; it runs exactly once for a non-empty batch and never for an empty one |
| Plugin.Database.Reply | www/SQLitePlugin.js:495-536 | the reply to one outstanding batch does what the scheduler does, with exactly one completion per non-empty batch |
| Plugin.Database.ReceiveReply | www/SQLitePlugin.js:560-623 | a flat encoded reply, parsed, drives the scheduler with exactly its results |
| Plugin.Database.AbortFromQ | www/SQLitePlugin.js:735-739 | tells one queued transaction of its failure |
| Plugin.Database.AbortAllPendingTransactions | www/SQLitePlugin.js:192-204 | aborts the queue as it was, then empties queue and lock; a throwing callback stops it half-way |
| Plugin.Database.OpenSucceeded | www/SQLitePlugin.js:217-239 | marks the database open unless it was closed meanwhile, calls back, then wakes the queue unless the callback threw |
| Plugin.Database.OpenFailed | www/SQLitePlugin.js:240-249 | calls back, forgets the database and aborts the queue; nothing of that if the callback threw |
| Plugin.Database.Occur | www/SQLitePlugin.js:119-739 | any event on the objects is the scheduler's step |
| Plugin.RunEvents | www/SQLitePlugin.js:119-739 | any run on the objects ends in the state of the model's run, with the invariant and mutual exclusion, unless the rules were broken |
| Wire.FlatList | www/SQLitePlugin.js:541-559 | the loop builds a flat list from which the receiver reads exactly the statements of the batch |
| Wire.RequestRoundTrip | www/SQLitePlugin.js:541-559 | index by index the receiver reads `BEGIN`, `SELECT 1`, `INVALID STATEMENT`, `COMMIT` or `ROLLBACK` without parameters for the plugin's own statements, and text and parameters as given for the application's |
| Wire.CountParts | www/SQLitePlugin.js:638-653 | the number of parts is the length divided by 500, rounded up |
| Wire.Slice | www/SQLitePlugin.js:638-653 | parts joined in order give the list; partids count from 1; every part has 1 to 500 entries and all but the last have 500 |
| Wire.SendParts | www/SQLitePlugin.js:624-653 | from the parts of any batch, joined, the receiver reads exactly its statements, in order |
| Receiver.Deliver | www/SQLitePlugin.js:541-653 | a receiver that joins the parts and obeys the texts it reads changes the database as the batch does and reports the same results, if no text of the application is BEGIN, COMMIT or ROLLBACK |
| Receiver.BatchArrives | www/SQLitePlugin.js:312-346 | when `sqlBatch` starts with only its opening queued, what is sent next reads as `BEGIN` and the given statements with their parameters, in their order |
| Receiver.SingleArrives | www/SQLitePlugin.js:296-310 | when `executeSql` starts with only its opening queued, what is sent next reads as `SELECT 1` and the given statement |
| Wire.RowKeepsLast | www/SQLitePlugin.js:592-599 | a row object has the names of the columns, each with the value of its last column; `__proto__` is a property iff an earlier column of that name was null |
| Wire.RowCompleteIff | www/SQLitePlugin.js:592-599 | every column name arrives in the row object iff none is `__proto__`, or a null of that name precedes another |
| Wire.ParseRow | www/SQLitePlugin.js:592-601 | one row's columns become the row object that assigning them in order makes |
| Wire.ParseRows | www/SQLitePlugin.js:591-608 | all rows up to the end marker, even if cells or names equal the marker |
| Wire.ReplyLaidOut | www/SQLitePlugin.js:566-620 | what a result delivers are the entries behind its tag, at their places: change count and insert id, or code, SQLite code and message, or the optional entries and then the columns of each row |
| Wire.ParseReply | www/SQLitePlugin.js:560-623 | for every list of results, one handler call per statement, for indices 0 to n-1 in order, each with the entries that follow its tag in the flat list; rows are the objects made of their columns |
| Wire.EncodeUnique | www/SQLitePlugin.js:566-620 | encodings form a prefix code: a result is determined by any list it begins |
| Wire.ReplyUnique | www/SQLitePlugin.js:560-623 | different lists of results have different encodings |
| AqWorker.IdsAreFresh | www/aqworker.js:38-40 | callback ids of different requests differ, even if the prefix has changed between them |
| AqWorker.PayloadArrivesWhole | www/aqworker.js:20-21 | id and payload without '?' come out of the split as they went in |
| AqWorker.ActsKeep | www/aqworker.js:30-46 | requests issued anywhere add fresh entries and touch none that is there |
| AqWorker.Kept | www/aqworker.js:1-46 | over every message sequence each table entry is its own request's, and callbacks that have returned are gone |
| AqWorker.NeverAgain | www/aqworker.js:13-28 | over every message sequence a callback runs only for its own request's id and never again after it has returned; the handler name is set at most once |
| AqWorker.EachCallbackOnce | www/aqworker.js:13-28 | if callbacks do not throw, each request's callback runs at most once |
| AqWorker.ReplyRunsCallback | www/aqworker.js:23-26 | a reply runs its callback with the whole payload; its entry stays iff it throws; all other entries and the requests issued inside survive |
| AqWorker.RequestIsAnswered | www/aqworker.js:34-46 | over every message sequence, with name and prefix there, a request registers its callback under a new id, and a reply to that id runs it with the whole payload |
| AqWorker.StillWaits | www/aqworker.js:23-26 | over every message sequence an entry stays in the table until a message for its own id comes |
| AqWorker.ForeignIgnored | www/aqworker.js:17-23 | messages without the base prefix, without a '?', or for nobody in the table change nothing |
| AqWorker.NameIsSet | www/aqworker.js:13-28 | the first message that names the handler sets the name to its payload; later ones do nothing |
| AqWorker.NameStaysSet | www/aqworker.js:13-15 | over every message sequence the handler name, once set, stays |
| AqWorker.Globals.MakeRequest | www/aqworker.js:34-46 | throws iff handler name or prefix is missing, and then changes nothing; otherwise the counter goes up by one and the callback is registered under the id made of prefix and counter, which is new to the table |
| AqWorker.Globals.Listen | www/aqworker.js:17-28 | ignores foreign or unknown messages, otherwise calls and then deletes the entry |
| AqWorker.RunEvents | www/aqworker.js:1-46 | any run on the worker's globals ends in the state of the model's run, with table and history in agreement |
| AndroidBatch.MatchAtIff | src/android/io/sqlc/SQLiteAndroidDatabase.java:41-42 | the matcher finds a match at a position iff the pattern has one there, with the longest white space before the group |
| AndroidBatch.FindIff | src/android/io/sqlc/SQLiteAndroidDatabase.java:287-290 | the search finds the leftmost match from a position on, with the longest white space before its group, or there is none; the group starts at least 7 further |
| AndroidBatch.LastWhere | src/android/io/sqlc/SQLiteAndroidDatabase.java:285-293 | the loop ends with a clause of the query such that no match starts at or after it, or with none iff the query has none |
| AndroidBatch.CountQuestionMarks | src/android/io/sqlc/SQLiteAndroidDatabase.java:297-303 | how often '?' occurs in the clause |
| AndroidBatch.LastParams | src/android/io/sqlc/SQLiteAndroidDatabase.java:305-315 | the last k parameters, or an exception iff there are fewer |
| AndroidBatch.CountClause | src/android/io/sqlc/SQLiteAndroidDatabase.java:281-315 | the clause found and as many trailing parameters as it has '?', or an exception iff there are too few |
| AndroidBatch.QueryTypeIff | src/android/io/sqlc/SQLiteAndroidDatabase.java:497-507 | the type of a query is decided by its first word, a span between white space, in any letter case |
| AndroidBatch.ExecuteStatement | src/android/io/sqlc/SQLiteAndroidDatabase.java:111-249 | by the first word of the query: begin, commit and rollback get their own operation; an insert with parameters is prepared and inserted; an update or delete is prepared and executed, with a raw query only after an exception of another kind, or counted first on old systems; anything else is a raw query; without parameters or with too few nothing is done; success is reported iff one operation took effect, never more than one does |
| AndroidBatch.ExecuteSqlBatch | src/android/io/sqlc/SQLiteAndroidDatabase.java:93-279 | one result per statement, in order, with the statement's own id, whatever fails, each statement dispatched by its own query and parameters |

## Left out

- `SelfTest` (`www/SQLitePlugin.js:827-1029`): it removes `txLocks` entries by hand.
- `openDatabase`, `deleteDatabase` and `sqlBatch` argument checks, location tables and error texts: flat validation; only delete's effect on `openDBs` is kept.
- Parameter conversion in `addStatement` (`Blob`, `toString`) and the payload defaults of `handleStatementSuccess`: values are already JSON.
- The success and error callbacks of `close` and `delete`, and of `open` on a name already open: they run later and appear as calls from outside.
- Wire.ParseReply: states nothing about malformed replies, for which the source's parser may run past the end; the encoder is inferred from the parser, since the C code is not part of this model.
- RunRefinement.BatchingRefinesQueue: covers locking transactions, those that COMMIT or ROLLBACK ends; a plain one has nothing to roll back, and `Atomicity` covers it.
- Theorems.NeverStuck: says that somebody is to answer, not that native code or the application ever does.
- The "no handler name" exception that a worker's request may throw inside `run`: it is in `AqWorker`, not in the scheduler.
- AndroidBatch.ExecuteStatement: the platform's answers are inputs; cursor and JSON conversion, the compatibility count's own query, and SDK detection are not modelled, and `setTransactionSuccessful` with `endTransaction` is one operation.
- AndroidBatch.QueryTypeIff: letter case is that of ASCII, while `toLowerCase` follows the device's locale (in Turkish `COMMIT` does not become `commit`).
- `executeSqlBatch` on a database that has been closed (`mydb == null`): the whole batch is one error.
- The iOS and native C sources: only declarations or outside this repository.
