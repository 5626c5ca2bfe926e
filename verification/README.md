# gluamysql: a verified model of its asynchronous scheduler

gluamysql gives Lua code in Garry's Mod promises for MySQL operations. It runs on one thread: every game
tick visits each open database, and each visit makes at most one start or continue call of MariaDB's
non-blocking interface for the action at the front of that database's queue. Prepared statements use
detached worker threads as well. This project models that machinery and proves what it is for: that the
chopped-up, interleaved runs deliver what the blocking program would, in order, exactly once, without
losing a callback or a connection, with every registry reference accounted for, and that shutdown
completes. Where it falls short of that, the exact condition is proved, and `Witnesses` and the findings
below name the runs that exhibit it.

`dafny verify dfyconfig.toml` checks everything.

## How the model is laid out

- **Connector calls** are fixed data (`Connector`): each operation suspends a finite number of times, with
  wait flags, and then has an outcome. `Turns.Env` is what the world adds to one visit: the state of the
  socket, and how far a worker thread gets.
- **User callbacks** are scripts (`Promise.Handler`): uses of the promise itself and requests for further
  operations, optionally ending in a throw. Handlers of requested operations nest to any depth.
- **State machines** on values: `QueryMachine`, `ExecuteMachine`, `Actions` (one visit of any action with
  its promise), `Scheduler` (registry, `open_databases`, ticks, collection, shutdown, and `Event`, whatever
  may happen to the module). `QueryRuns`, `ExecuteRuns` and `AsyncRuns` are whole runs of one action, and
  `Delivery` describes what their callbacks are given, part by part, from the answers of the server alone.
  `Invariants`, `Insertion` and `Ticks` prove the invariant of every run of the module; `Ledger` accounts
  for lost references and deleted databases; `Drain`, `Shutdown` and `Wedges` say when work ends and when it
  does not; `Loudness` and `Patience` tell beforehand which pending work will throw and which can end, by
  the handlers that the outcomes select, `Mildness` which runs interrupt no query, and `Lifting` carries
  such properties from visits of actions to ticks of the module; `TickRefinement` relates the erasing loop
  to a plain pass; `Guarantees` says what follows for a user, and `Witnesses` holds runs that exhibit each
  failure.
- **Assumptions on Lua code and the collector** are in `Scheduler.Enabled`: code addresses only databases it
  can hold, and a database is collected only when nothing reaches it, neither its own pin nor a pending
  handler. Everything is proved for every run that satisfies them.
- **Classes** with the source's fields, updated in place: `PromiseObject`, `QueryAction`,
  `ExecuteStatementAction`, `LuaActionAsync`, `LuaDatabase`, `LuaModule`, `StatementArguments`,
  `StatementList`. The queue and `current_action` of a `LuaDatabase` hold action objects, no two of which
  share anything, and a visit is dispatched to the object (`ActionObjects.VisitObject`). The methods follow
  the source branch by branch and are proved equal to the functions of the state machines.
- **Data**: `Rows` (rows into Lua tables), `Binding` (Lua arguments into MYSQL_BIND), `Statements`
  (prepared-statement handles), `Registry` (`luaL_ref` with reuse of released references).

## Findings

Where the code does not do what its documentation or its comments suggest, the model follows the code:

- Freeing a complete result that ends with error 2006 or 2013 replaces the result table by an empty one
  and resolves with it (src/actions/query.h:40-46); the comment says "try reperform", but nothing is
  retried. Rows are lost exactly then (`QueryMachine.ExpectedIsBlocking`; a run: `Witnesses.RowsAreLost`).
  Whether a free can end so when the last fetch reported no error is up to the connector; the model lets it.
- A failed bind whose rejection handler throws leaves the action waiting for a flag that no worker will
  set. The action never finishes (`ExecuteRuns.FailedBindNeverFinishes`), every later tick finds work, and
  the shutdown hook never reaches its closing loop (`Wedges.WedgedTick`, `Wedges.WedgedNeverCloses`; a run
  whose drain never ends: `Witnesses.NeverShutsDown`).
- A wait for a timeout alone never passes the readiness test, and a wait to read and to write passes it only
  when both are ready (`SocketStatus.WakeableExactly`, `SocketStatus.CheckMeaning`). So a query or a single
  operation can finish if and only if no wait on its path is for a timeout alone
  (`QueryRuns.QueryFinishesExactly`, `AsyncRuns.AsyncFinishesExactly`). An execution can finish if and only
  if it is not such a failed bind, and, when its result set is empty, no wait of freeing the statement is
  for a timeout alone (`ExecuteRuns.ExecuteFinishesExactly`; runs: `Witnesses.QuerySticks`,
  `Witnesses.FreeSticksWithoutRows`).
- When rows were stored, `in_thread` stays set after they have been freed, and the statement's own free is
  then continued on every tick without looking at the socket (src/actions/executestatement.h:153, 286-289);
  without rows it is not (`ExecuteRuns.FreeIgnoresSocketExactly`).
- A query that fails and whose rejection handler throws is continued once more on an operation that is
  already complete: the promise hides it, the connector sees it. Under every schedule this happens once to
  such a query, and never to another (`QueryRuns.QuerySettlesAsBlocking`). In a run of the module the
  discipline of the calls is broken exactly that often (`Guarantees.DisciplineExactly`; a run:
  `Witnesses.OneStrayContinue`), so never without rejection handlers that throw
  (`Guarantees.MildRunsAreDisciplined`).
- Registry references are lost: one for each successful prepare (src/actions/preparestatement.h:47) and
  three for each `execute` with an argument of another type, whose constructor is left by the type error
  (src/actions/executestatement.h:136). Nothing else is lost (`Guarantees.IdleLosesExactly`; runs:
  `Witnesses.PrepareLosesOne`, `Witnesses.TypeErrorLosesThree`).
- A statement's handle stays unclosed after the shutdown if and only if the server refused the statement,
  or the statement was open when its database was collected, which it does not prevent: deleting the
  database drops its list of statements (`Statements.HandlesLeftExactly`; runs:
  `Statements.RefusedHandleLeaks`, `Statements.OrphanedHandleLeaks`, and in the scheduler
  `Witnesses.CollectedUnderStatement`).
- The shutdown hook is left before its closing loop, with a connection still open, if and only if *loud*
  work was pending when it was called: an action whose outcome selects a handler that throws, or that
  requests, directly or through the handlers of what it requests, an operation with a type error or a
  throwing handler of its own (`Shutdown.HookClosesExactly`; a run: `Witnesses.LeftOpen`). It can close
  everything if and only if there is no such work and none that waits for a timeout alone or is wedged
  (`Shutdown.HookCanCloseExactly`).
- A NULL in the result of a query is stored as a value, the empty text in a text column, while a prepared
  statement stores nothing (`Rows.NilExactly`).
- The loop of `RunTick` never goes round twice (src/luadatabase.cpp:74-75).
- The repository's README puts `AFFECTED_ROWS` and `LAST_INSERT_ID` into each row; the code sets them on
  the result table.

## Model

| member | source | states |
|---|---|---|
| `SocketStatus.CheckMeaning` | src/luadatabase.h:24-37 | The bit tests on the polled status mean: nothing is awaited; or the poll did not fail and every awaited one of read (1) and write (2) is ready, at least one being awaited; or the awaited exceptional condition (4) is there. |
| `SocketStatus.WakeableExactly` | src/luadatabase.cpp:23-48 | A wait passes the readiness test in some socket state if and only if it is not for a timeout alone; then a fully ready socket passes it. |
| `Rows.PushRow` | src/gluamysql.h:90-108 | The table that the loop over the columns leaves holds, for the last column of each name, the text itself, the number read from it for the seven numeric types, or its first byte for BIT, and nothing for a column of the NULL type; a NULL gives nothing with NULL flags and otherwise what the empty text gives; there are no other entries. |
| `Rows.NilExactly` | src/gluamysql.h:67-104 | A column reads as nil exactly when its type is NULL, or it is NULL and NULL flags are passed, as only prepared statements do; a query stores a NULL text column as the empty text. |
| `Rows.RowTableEntry` | src/gluamysql.h:67-108 | Among columns of one name the last alone decides, by its type and text; if it reads as nil there is no entry, whatever earlier columns held. |
| `Rows.RowTableKeys` | src/gluamysql.h:90-108 | Every entry of the table comes from a column of that name. |
| `Rows.RowTableHolds` | src/gluamysql.h:67-108 | The same description, for the table as a function of the row. |
| `Rows.HoldsRowOnce` | src/gluamysql.h:90-108 | It admits one table only. |
| `Connector.TypeErrorExactly` | src/actions/executestatement.h:84-138 | `execute` raises a type error if and only if some argument within the parameter count is neither nil, boolean, number nor string. |
| `Promise.HistoryCallsChosen` | lua/promise.lua:40-101 | Over every sequence of registrations and settlements, with handlers that use the promise again while they run, exactly one handler call happens, or none: the handler of the first settlement's kind, with its data. |
| `Promise.UseKeepsQuiescent` | lua/promise.lua:69-101 | No callback is lost: after each use a settled promise with a matching handler has fired; the first outcome stays; at most one call is made, exactly when the use completes the pair of outcome and handler, and it throws exactly when the handler does, be it at a type error of `execute`. |
| `Promise.HistoryKeepsQuiescent` | lua/promise.lua:40-101 | The same after any sequence of uses, and the first outcome survives them all. |
| `Promise.FiredBodyIsInert` | lua/promise.lua:69-72 | Whatever a handler does to its own, already fired promise calls nothing and changes no outcome. |
| `Delivery.TableExactly` | src/actions/query.h:120-136 | The result table holds the rows in order, LAST_INSERT_ID the insert id unless that is 0, and AFFECTED_ROWS the affected-row count unless that is 2^64 - 1; nothing else does. |
| `Delivery.QueryExactly` | src/actions/query.h:62-136 | The outcome of a query, by its parts: the first error of query, use and fetch, or else the table of each row in order with both fields, and no row if there was no result or its free ended with 2006 or 2013. |
| `Delivery.ExecuteExactly` | src/actions/executestatement.h:168-317 | The outcome of an execution, by its parts: the first error of bind, execute and store, the error of a fetch that ends with anything but 100, truncation for 101, or else the table of each row in order with both fields. |
| `Delivery.ExpectedExactly` | src/luaactionasync.h:13-25 | For every kind of action, what any run settles it with is the one outcome so described; a single operation resolves if and only if it returned 0, and the two closes settle nothing. |
| `Delivery.PendingTakes` | lua/promise.lua:90-101 | A pending promise takes what it is settled with, whatever its handlers do. |
| `PromiseObjects.PromiseObject.constructor` | lua/promise.lua:13-30 | A new promise is pending, with the handlers chained so far. |
| `PromiseObjects.PromiseObject.Next` | lua/promise.lua:40-43 | Registering in place, with whatever the handler does if it is called at once. |
| `PromiseObjects.PromiseObject.Catch` | lua/promise.lua:49-52 | The same for the rejection handler. |
| `PromiseObjects.PromiseObject.Finish` | lua/promise.lua:90-101 | Settling in place: absorbed after the first time. |
| `PromiseObjects.PromiseObject.TryFire` | lua/promise.lua:69-88 | Fires at most once, marking the promise before the handler runs. |
| `QueryMachine.ExpectedIsBlocking` | src/actions/query.h:37-49 | The outcome of every run is that of query, use, fetch all, free, if and only if it is not the case that rows were fetched and freeing them ended with error 2006 or 2013. |
| `QueryMachine.QueryKeepsInv` | src/actions/query.h:26-136 | One visit under any readiness keeps the rows fetched so far in order, and a visit that ends the query leaves the promise rejected, or about to be resolved, with that outcome, also after a rejection handler has thrown. |
| `QueryMachine.AdvanceLands` | src/actions/query.h:26-35 | The start or continue call of a visit either leaves the operation suspended with everything in place, or delivers the operation's result to the last function of its phase. |
| `QueryMachine.LandedFinishes` | src/actions/query.h:62-136 | The last function of a phase goes on with the next phase in order, or rejects with the blocking program's error, or is about to resolve with its table. |
| `QueryMachine.QueryCalls` | src/actions/query.h:26-54 | Each visit waits, or starts when nothing is suspended, or continues the suspended operation; a completed one is continued only right after the rejection handler has thrown. |
| `QueryMachine.QueryTally` | src/actions/query.h:56-118 | Every visit leaves its operation suspended or completes exactly one. |
| `QueryMachine.QueryEnds` | src/actions/query.h:68-118 | An unrejected query with a result set ends by freeing it, one without ends at once. |
| `QueryMachine.QueryRank` | src/actions/query.h:26-54 | Every visit at which the socket lets the operation go on brings the query nearer to its end, and no visit takes it further away. |
| `QueryMachine.QueryWaits` | src/actions/query.h:26-54 | A visit changes what is ahead of a query only by waits that have passed the readiness test. |
| `QueryRuns.QuerySettlesAsBlocking` | src/actions/query.h:26-136 | For every readiness schedule and rejection handler, a finished query settled as the blocking program would, except when rows are lost as above; delivering k rows took k + 3 + s calls, s of them suspending, and one free; one continue call went to an operation already complete if the query fails and its rejection handler throws, and none otherwise; what the callback is given is described field by field. |
| `QueryRuns.QueryIsScheduleIndependent` | src/actions/query.h:26-136 | The invariant behind it, from any point of a run. |
| `QueryRuns.QueryFinishes` | src/actions/query.h:26-54 | The number of ticks at which the socket lets an unfinished query go on is bounded, also when the rejection handler throws. |
| `QueryRuns.QueryFinishesExactly` | src/actions/query.h:26-54 | Some readiness schedule finishes the query if and only if no wait on its path is for a timeout alone; the path is that of the phases, with one more continue after a throwing rejection handler. |
| `LuaActions.Reject` | src/luaaction.h:30-38 | Rejecting leaves by an exception exactly when the promise was pending and its rejection handler throws; afterwards the promise is settled. |
| `LuaActions.Resolve` | src/luapromise.h:22-24 | Resolving is absorbed by a promise already rejected. |
| `QueryActions.QueryAction.constructor` | src/actions/query.h:13-18 | A new query action is unstarted with an empty table. |
| `QueryActions.QueryAction.StartPhase` | src/actions/query.h:56-112 | The start call of the phase, and its result if it completes at once. |
| `QueryActions.QueryAction.ContinuePhase` | src/actions/query.h:59-115 | The continue call of the phase, including one on a completed operation. |
| `QueryActions.QueryAction.FinishPhase` | src/actions/query.h:62-118 | The last function of the phase: what is rejected, appended, or started next, and whether the handler threw through it. |
| `QueryActions.QueryAction.Conclude` | src/actions/query.h:37-53 | The end of `Query`: the table is replaced after a lost server, `started` is reset unless the query is over or an exception leaves. |
| `QueryActions.QueryAction.Query` | src/actions/query.h:26-54 | One call of `Query` does to the fields and the promise what the state machine does. |
| `QueryActions.QueryAction.Finish` | src/actions/query.h:120-136 | A promise still pending is resolved with the rows, the insert id in LAST_INSERT_ID unless it is 0, and the count in AFFECTED_ROWS unless it is 2^64 - 1. |
| `QueryActions.QueryAction.Visited` | src/actions/query.h:120-136 | With `DoFinish` and `Finish`: `has_finished` is set before the promise is resolved. |
| `ExecuteMachine.WorkerStepKeepsInv` | src/actions/executestatement.h:173-277 | Every atomic step of a worker keeps the invariant of all interleavings. |
| `ExecuteMachine.BusyTickTouchesNothing` | src/actions/executestatement.h:147-289 | While a worker is unfinished a tick changes nothing: no second worker, no new phase, no look at `out` or `resultdata`, no rejection. |
| `ExecuteMachine.SpawningTickWaits` | src/actions/executestatement.h:168-199 | A worker spawned during a tick has finished before that tick uses its work, or else the tick ends without using it. |
| `ExecuteMachine.StartLands` | src/actions/executestatement.h:168-293 | A phase is started only when no worker is unfinished; afterwards the worker runs, or the phase's work is complete. |
| `ExecuteMachine.LandedFinishes` | src/actions/executestatement.h:201-300 | The last function of a phase rejects with the blocking program's error, or appends exactly the rows fetched, in order, or goes on. |
| `ExecuteMachine.FetchAppends` | src/actions/executestatement.h:240-249 | When the fetch ends with 100, the result table holds the table of each row fetched, in fetch order. |
| `ExecuteMachine.ExecuteKeepsInv` | src/actions/executestatement.h:147-317 | One visit keeps the invariant; a visit that ends the execution leaves the promise rejected, or about to be resolved, as the blocking program would, and every stored row freed. |
| `ExecuteMachine.ExecuteCalls` | src/actions/executestatement.h:292-300 | Only the freeing of the statement makes non-blocking calls, start before continue. |
| `ExecuteMachine.ExecuteRank` | src/actions/executestatement.h:147-166 | Every visit at which the action can take a step brings it nearer to its end. |
| `ExecuteMachine.ExecuteWaits` | src/actions/executestatement.h:147-166 | A visit changes what is ahead of an execution only by waits that have passed the readiness test, where it is made. |
| `ExecuteRuns.ExecuteSettlesAsBlocking` | src/actions/executestatement.h:147-317 | In every interleaving of worker steps and ticks, with any rejection handler: the handoff is safe throughout, and a finished execution settled as bind, execute, store, fetch until nonzero would, all rows in order, no worker left, every stored row freed; what the callback is given is described field by field, and for a fetch that ends with 100 it is the table of row i at place i. |
| `ExecuteRuns.ExecuteIsScheduleIndependent` | src/actions/executestatement.h:147-317 | The invariant behind it, from any point of a run. |
| `ExecuteRuns.FailedBindNeverFinishes` | src/actions/executestatement.h:168-206 | A failed bind with a throwing rejection handler never finishes. |
| `ExecuteRuns.ExecuteFinishes` | src/actions/executestatement.h:147-261 | Apart from that, the number of events that move an unfinished execution is bounded, also when the rejection handler throws. |
| `ExecuteRuns.ExecuteFinishesExactly` | src/actions/executestatement.h:147-300 | Some interleaving finishes the execution if and only if the bind does not fail under a throwing rejection handler and, when the result set is empty, no wait of freeing the statement is for a timeout alone. |
| `ExecuteRuns.FreeIgnoresSocketExactly` | src/actions/executestatement.h:153-156 | In every interleaving, a suspended free of the statement is continued on an unready socket if and only if the statement returned rows. |
| `ExecuteStatementActions.ExecuteStatementAction.constructor` | src/actions/executestatement.h:78-88 | The arguments are bound: either they read back as given, cut or filled to the parameter count, or the type error is at the first that cannot be bound; the action is unstarted, without a worker. |
| `ExecuteStatementActions.ExecuteStatementAction.CreateTable` | src/actions/executestatement.h:90-91 | The reference of the result table comes after the binding, behind those of the promise. |
| `ExecuteStatementActions.ExecuteStatementAction.WorkerStep` | src/actions/executestatement.h:173-277 | One step of the worker's loops over `out`, `resultdata` and `thread_finished`. |
| `ExecuteStatementActions.ExecuteStatementAction.Spawn` | src/actions/executestatement.h:172-192 | Detaching a worker and testing the flag, however far the worker gets in between. |
| `ExecuteStatementActions.ExecuteStatementAction.StartPhase` | src/actions/executestatement.h:168-294 | The first function of the phase; no worker after a failed bind or without rows to free. |
| `ExecuteStatementActions.ExecuteStatementAction.ContinuePhase` | src/actions/executestatement.h:195-297 | The second function of the phase. |
| `ExecuteStatementActions.ExecuteStatementAction.FinishPhase` | src/actions/executestatement.h:201-300 | The third function: `in_thread`, rejection, rows, next phase; after an exception the phase has not changed. |
| `ExecuteStatementActions.ExecuteStatementAction.AppendRows` | src/actions/executestatement.h:240-249 | The table of stored row i comes at place i behind what was there, built column by column. |
| `ExecuteStatementActions.ExecuteStatementAction.Query` | src/actions/executestatement.h:147-166 | One call of `Query` does to the fields and the promise what the state machine does. |
| `ExecuteStatementActions.ExecuteStatementAction.Finish` | src/actions/executestatement.h:302-317 | A promise still pending is resolved with the rows, the insert id in LAST_INSERT_ID unless it is 0, and the count in AFFECTED_ROWS unless it is 2^64 - 1. |
| `ExecuteStatementActions.ExecuteStatementAction.Visited` | src/actions/executestatement.h:302-317 | With the worker steps before it, `DoFinish` and `Finish`. |
| `LuaActionsAsync.LuaActionAsync.Query` | src/luaactionasync.h:13-25 | One start or continue call; true exactly when nothing is suspended. |
| `LuaActionsAsync.LuaActionAsync.Finish` | src/actions/ping.h:21-27 | A pending promise is resolved if and only if the operation returned 0, and otherwise rejected with the connection's error; the two closes leave it as it was. |
| `LuaActionsAsync.LuaActionAsync.Visited` | src/luaactionasync.h:13-25 | With `DoFinish` and `Finish`, one visit of the action. |
| `AsyncRuns.AsyncTally` | src/luaactionasync.h:13-25 | In every schedule a finished operation was started once and continued once for each time it was suspended. |
| `AsyncRuns.AsyncFinishesExactly` | src/luaactionasync.h:13-25 | Some readiness schedule finishes a single operation if and only if none of its waits is for a timeout alone. |
| `ActionObjects.VisitObject` | src/luadatabase.cpp:61-71 | Whatever the kind of the action object, a visit does to it and its promise what the state machine does, and to no other object anything. |
| `Actions.SettleEffect` | lua/promise.lua:90-101 | Reject, then resolve, is observed as reject: a settlement after the first changes nothing and calls nothing. |
| `Actions.VisitKeepsInv` | src/luadatabase.cpp:61-71 | One visit by `RunTick` of any action goes on to `Free` only with the promise settled as the server's answers demand, and enters `Finish` exactly when it sets `has_finished`. |
| `Actions.VisitCalls` | src/luaactionasync.h:13-25 | A visit makes at most one non-blocking call, and that call breaks the start-continue discipline exactly when the visit before left by an exception of a query's rejection handler. |
| `Actions.ThrowsComeFromHandlers` | src/luaaction.h:18-38 | An exception leaves a visit only out of a throwing handler of a promise still pending, and before `Finish` only out of the rejection handler. |
| `Actions.VisitSettles` | src/luadatabase.cpp:61-71 | A visit leaves the promise alone and calls nothing, or settles it as the server's answers demand and calls the handler which that outcome selects; an exception comes out of that handler alone. |
| `Actions.VisitBudget` | src/luadatabase.cpp:61-71 | A helpful visit leads to `Free` or lowers the work left; an exception costs no more than the promise's one settlement. |
| `Jobs.VisitPays` | lua/promise.lua:79-85 | The work that handlers request during a visit is paid for by the handlers no longer pending. |
| `Jobs.VisitTargets` | lua/promise.lua:79-85 | Handlers called in a visit address only databases that their code could hold. |
| `Registry.OwnedOnce` | src/luapromise.h:16-20 | No reference has two owners, and an owned one has neither been released nor lost. |
| `Registry.RefsConserve` | src/luapromise.h:8-14 | Taking references keeps every reference either owned, released or lost. |
| `Registry.UnrefAllConserves` | src/luapromise.h:16-20 | Releasing an action's references takes exactly those out of ownership. |
| `Registry.LoseConserves` | src/actions/preparestatement.h:47 | References that an owner forgets pass from owned to lost, and nowhere else. |
| `Insertion.InsertAtKeepsInv` | src/luadatabase.h:79-85 | Asking a database for an operation, from anywhere, keeps the invariant: order, numbering, the self-pin, ownership of references, also when a type error of `execute` ends it. |
| `Insertion.ActionReferences` | src/luapromise.h:8-20 | An action of a single operation owns the three references of its promise, a query or an execution a fourth; they are released in the order promise, reject, resolve, result table. |
| `Insertion.AbandonConserves` | src/actions/executestatement.h:78-86 | A type error of `execute` loses the three references of the promise. |
| `Insertion.InsertAllUndisturbed` | src/luadatabase.h:79-85 | What handlers insert during a tick touches nothing but the ends of queues and the pins. |
| `Ticks.RunTickKeepsInv` | src/luadatabase.cpp:50-82 | `RunTick`, ended by an exception or not, keeps the invariant. |
| `Ticks.ReleaseKeepsInv` | src/luadatabase.cpp:61-80 | `Free`, clearing `current_action` and giving up the self-pin with the last action release each reference once. |
| `Ticks.EraseKeepsInv` | src/main.cpp:39-45 | A database that the tick deletes owns no reference, and its connection has been closed. |
| `Ticks.TickFromKeepsInv` | src/main.cpp:28-50 | The erasing loop keeps the invariant, also when a callback's exception ends it. |
| `Ticks.OpenKeepsInv` | src/luadatabase.h:43-64 | So does a new database. |
| `Ticks.CollectKeepsInv` | src/luadatabase_library.cpp:20-40 | So does the collection of one: its weak reference is released and one close action is queued. |
| `Ticks.ChainKeepsInv` | lua/promise.lua:40-52 | So does chaining a handler onto the promise of a pending action, even if it runs at once. |
| `Ticks.RunKeepsInv` | src/luadatabase.cpp:50-82 | Hence every possible run of opens, requests, chained handlers, collections and ticks keeps it. |
| `Ledger.InsertAtAccounted` | src/luadatabase.h:79-85 | Inserting an action loses nothing; a type error loses three references. |
| `Ledger.VisitedPrepares` | src/actions/preparestatement.h:23-47 | A visit loses one reference exactly when it enters `Finish` of a prepare whose operation returned 0. |
| `Ledger.TickFromBooks` | src/main.cpp:28-50 | A tick keeps the account of lost references and of deleted databases, also when a callback throws. |
| `Ledger.RunBooks` | src/main.cpp:39-45 | In every possible run each lost reference is accounted for, and each database ever opened is open or was deleted idle and closed, once. |
| `Guarantees.ExactlyOnceInOrder` | src/luadatabase.cpp:50-75 | In every run: inserted actions are the freed ones, then the running one, then the queue, in order and all different; `Finish` was entered once for each freed action, in that order, and for the running one at most once; each freed promise is settled as expected; no queued action has started. |
| `Guarantees.CallbacksReceive` | src/luadatabase.cpp:61-75 | Over every run, the outcome of every action freed by any database, open or deleted since, is the one described by its parts; a single operation succeeded if and only if it returned 0. |
| `Guarantees.SubmitJoins` | src/luadatabase.h:79-85 | An operation asked for by Lua code joins the end of the queue of its database and no other; a type error of `execute` joins none. |
| `Guarantees.ChainRegisters` | lua/promise.lua:40-52 | A handler chained onto a pending promise replaces the one of its kind, and nothing else in the module changes. |
| `Guarantees.CollectQueuesClose` | src/luadatabase_library.cpp:20-40 | Collecting a database leaves it with the close of its connection as its only action, without weak table or pin; no other database changes. |
| `Guarantees.CollectedOnlyWhenIdle` | src/luadatabase_library.cpp:20-40 | A database is pinned exactly while it has work, so the collector takes it only when idle; then one close action is all its work, and it is idle again only when its connection has been closed, once. |
| `Guarantees.PinStays` | src/luadatabase.cpp:73-80 | A database that still has work after a tick keeps the self-pin it had, whatever its handlers requested, and one without work has none. |
| `Guarantees.ReferencesHaveOneOwner` | src/luapromise.h:8-20 | In every run each registry reference ever created has exactly one owner, or has been released, or is lost; lost are one for each successful prepare and three for each type error of `execute`. |
| `Guarantees.IdleLosesExactly` | src/actions/query.h:138-142 | When all databases are idle, even after `Finish` has thrown, the references not released are the weak tables of databases not collected, one for each successful prepare, and three for each type error of `execute`; so nothing is lost if and only if there was neither. |
| `Guarantees.DisciplineExactly` | src/luaactionasync.h:13-25 | The non-blocking calls of a connection form start continue* sequences, one operation at a time, but for exactly one stray continue for each time a query's rejection handler threw: none, if and only if none did. |
| `Guarantees.MildRunsAreDisciplined` | src/actions/query.h:26-54 | In every run without a rejection handler that throws, the non-blocking calls of every connection form start continue* sequences. |
| `Guarantees.NoRequestIsLost` | src/luadatabase.h:79-85 | Whenever a database is visited, first in a tick or after others, each operation that the handlers request joins the queue of the database it names, in order, unless it is an `execute` with a type error; nothing else joins. |
| `Guarantees.EveryConnectionIsClosedOnce` | src/main.cpp:59-79 | After any run, with any callbacks: a tick without work followed by the closing loop closes every connection ever opened exactly once, by its own action or by the hook. |
| `Guarantees.ShutdownCompletes` | src/main.cpp:59-82 | After any run that leaves no loud work pending, and nothing that waits for a timeout alone or is wedged, when sockets become ready and workers run: the drain stops without an exception; every action ever inserted into any database, open or deleted since, has been freed in order and settled as expected; the hook leaves every connection closed exactly once. |
| `Drain.RunTickWeight` | src/luadatabase.cpp:50-75 | `RunTick` never adds to the work left, counting everything that handlers may still request, and a helpful one takes some away. |
| `Drain.TickFromWeight` | src/main.cpp:28-50 | The same for one tick of all databases. |
| `Drain.DrainBound` | src/main.cpp:59-62 | The number of ticks in a row that find work is bounded by the work at the beginning and the number of ticks at which the outside world lets nothing move. |
| `Loudness.CalmVisit` | src/luadatabase.cpp:61-71 | An action is not loud if and only if its visit throws nothing, leaves it so, and requests nothing loud: whether an exception will come is settled by the outcome, whatever the socket and the workers do. |
| `Loudness.LoudTick` | src/main.cpp:28-50 | A tick throws only if loud work was pending, and loud work stays pending until a tick throws. |
| `Patience.PatientTurn` | src/actions/query.h:26-54 | For every kind of action, a call of `Query` without an exception changes what is ahead only by waits that have passed the readiness test, and ends only what could end. |
| `Patience.TameVisit` | src/luadatabase.cpp:61-71 | Work that is not loud and can end stays so through a visit, throws nothing and requests only such work; and only such work ends up so without an exception. |
| `Patience.TameTick` | src/main.cpp:28-50 | The same for a tick of the whole module. |
| `Patience.CooperativeTick` | src/main.cpp:33-47 | Whenever there is such work, ready sockets and running workers let some action move. |
| `Mildness.MildVisit` | src/actions/query.h:26-54 | An action without throwing rejection handlers, now or in what it requests, is not interrupted by a visit, and requests only such actions. |
| `Mildness.MildStep` | src/luadatabase.cpp:50-82 | No event without throwing rejection handlers interrupts a query anywhere. |
| `Shutdown.CleanTick` | src/main.cpp:28-50 | A tick that finds no work erases every collected database, so the closing loop meets none. |
| `Shutdown.CleanTickThenClose` | src/main.cpp:59-79 | Then the closing loop makes each connection closed exactly once. |
| `Shutdown.CloseAllInOrder` | src/main.cpp:69-79 | The closing loop closes the databases in the order of the list. |
| `Shutdown.ThrownTick` | src/main.cpp:28-50 | A tick left by an exception leaves a database that has not been collected. |
| `Shutdown.DrainThrowsExactly` | src/main.cpp:59-62 | Under any environment in which the drain ends, an exception leaves it if and only if loud work was pending when it began. |
| `Shutdown.HookClosesExactly` | src/main.cpp:59-82 | If the drain ends: without loud work pending at the call, the hook closes every connection ever opened exactly once; with loud work, it leaves a database that can still be used, and every such database keeps its connection open. |
| `Shutdown.FairDrainEnds` | src/main.cpp:59-62 | Without loud work, with waits that end and nothing wedged, the drain ends in every environment that is cooperative from some tick on, and no tick of it throws. |
| `Shutdown.OnlyTameDrains` | src/main.cpp:59-62 | No environment lets other work drain without an exception. |
| `Shutdown.HookCanCloseExactly` | src/main.cpp:59-82 | In some environment the hook ends with every connection closed, if and only if no loud work is pending, no wait on the way is for a timeout alone, and nothing is wedged. |
| `Wedges.WedgedTick` | src/main.cpp:28-50 | While a statement is wedged by a failed bind, every tick finds work, for every environment, and leaves it wedged. |
| `Wedges.WedgedNeverCloses` | src/main.cpp:59-79 | Then the hook never reaches its closing loop. |
| `Witnesses.NeverShutsDown` | src/main.cpp:59-62 | A run of one such statement after which the drain never ends. |
| `Witnesses.RowsAreLost` | src/actions/query.h:40-46 | A finished query that resolves with an empty table although it fetched a row. |
| `Witnesses.QuerySticks` | src/luadatabase.h:29-36 | A query that waits for a timeout alone: no schedule finishes it. |
| `Witnesses.FreeSticksWithoutRows` | src/actions/executestatement.h:153-156 | A statement whose free waits for a timeout alone: without rows no interleaving finishes it, with a row some does. |
| `Witnesses.OneStrayContinue` | src/actions/query.h:32-35 | A run in which one throwing rejection handler leads to one continue call on a completed operation. |
| `Witnesses.LeftOpen` | src/main.cpp:59-82 | A run that ends with a failing query pending whose rejection handler throws: under every environment the hook is left in its first tick, and the connection stays open. |
| `Witnesses.CollectedUnderStatement` | src/luapreparedstatement.h:46 | The collector may take a database after a successful prepare, although the statement can still be used. |
| `Witnesses.PrepareLosesOne` | src/actions/preparestatement.h:47 | A run of one successful prepare, idle at its end, that has lost one reference. |
| `Witnesses.TypeErrorLosesThree` | src/actions/executestatement.h:136 | A run of one `execute` with a table as argument, idle at its end, that has lost three references. |
| `TickRefinement.PassWithout` | src/main.cpp:33-47 | Deleting an idle collected database before or after the rest of the tick makes no difference. |
| `TickRefinement.TickRefinesPass` | src/main.cpp:28-50 | The loop that erases while it iterates does what a plain pass by index followed by one filter does, also when a callback's exception ends it. |
| `TickRefinement.DoomedExactly` | src/main.cpp:39-45 | A tick that runs to its end deletes exactly the databases that were collected and idle when it began. |
| `TickRefinement.UnreadyExactly` | src/main.cpp:29-49 | The tick returns true if and only if no database had work when it began, also when a callback throws. |
| `TickRefinement.TickIsPassThenFilter` | src/main.cpp:28-50 | All together: each database is visited once, one `RunTick` for each with work, the idle collected ones deleted, order kept, and true is returned if and only if none had work. |
| `LuaDatabases.LuaDatabase.Pop` | src/luadatabase.cpp:52-59 | The next action is taken from the front, only when none is running. |
| `LuaDatabases.LuaDatabase.VisitCurrent` | src/luadatabase.cpp:61-71 | The running action object is visited, and the database holds the new `socket_state`; queued actions are untouched. |
| `LuaDatabases.LuaDatabase.DropCurrent` | src/luadatabase.cpp:73-80 | `current_action` is cleared, and the self-pin returned with the last action. |
| `LuaDatabases.LuaModule.TakeReferences` | src/luapromise.h:8-45 | The references of a promise are taken in the order resolve, reject, promise, and listed in the order of their release. |
| `LuaDatabases.LuaModule.Construct` | src/luaaction.h:10-12 | Creating an action object of the right kind, owning fresh objects and fresh references and the next number; a type error of `execute` gives none and loses the references taken. |
| `LuaDatabases.LuaModule.InsertAction` | src/luadatabase.h:79-85 | A new action object is pinned only if there is no pin, and goes to the back of the queue; no two actions share an object. |
| `LuaDatabases.LuaModule.RunTick` | src/luadatabase.cpp:50-82 | One `RunTick` on the list of objects: pop, visit of the action object, insertions by handlers, `Free`, unpin; or the exception. |
| `LuaDatabases.LuaModule.FreeCurrent` | src/luadatabase.cpp:61-80 | `Free` and what follows it. |
| `LuaDatabases.LuaModule.FreeReferences` | src/luapromise.h:16-20 | Each reference is released, in order. |
| `LuaDatabases.LuaModule.VisitDatabase` | src/main.cpp:34-46 | One turn of the tick's loop, and where the iterator stands after it. |
| `LuaDatabases.LuaModule.TickHookTick` | src/main.cpp:28-50 | The in-place loop; with `TickRefinement` this is a pass and a filter. |
| `LuaDatabases.LuaModule.ShutdownHook` | src/main.cpp:59-82 | For any callbacks with which the drain ends: the closing loop runs unless a tick throws, and then no database is left and the clean-up flag is set if one was closed. |
| `LuaDatabases.LuaModule.CloseDatabases` | src/main.cpp:69-79 | The closing loop from the front; the cleaned-up flag is set if it closed any. |
| `LuaDatabases.LuaModule.Open` | src/luadatabase.h:43-64 | A new database goes to the end of the list with a weak reference and no pin. |
| `LuaDatabases.LuaModule.Collect` | src/luadatabase_library.cpp:20-40 | Nothing after clean-up; otherwise unreference, mark, and queue the close without pinning. |
| `Binding.StatementArguments.constructor` | src/actions/executestatement.h:79-82 | Every parameter starts as NULL with an is_null buffer of its own. |
| `Binding.StatementArguments.PopulateBind` | src/actions/executestatement.h:101-139 | A type error if and only if the value is neither nil, boolean, number nor string; otherwise the flag, the type and the buffers hold it as the source writes them, and reading the parameter back through its pointers gives it; no other parameter reads differently, although buffers were appended; a type error changes nothing. |
| `Binding.StatementArguments.PopulateAll` | src/actions/executestatement.h:84-86 | Reading the finished array back gives the arguments, cut or filled with nil to the parameter count, if and only if none within the count is of another type; otherwise the first such one raises the error. |
| `Binding.OthersUndisturbed` | src/actions/executestatement.h:94-99 | Appending buffers and writing another parameter's is_null buffer disturbs no earlier bind. |
| `Binding.BindsExactly` | src/actions/executestatement.h:84-138 | Binding succeeds if and only if every argument within the parameter count is nil, a boolean, a number or a string; surplus arguments never matter. |
| `Statements.EraseRemoveExactly` | src/actions/preparestatement_close.h:22-24 | The one-iterator `erase(remove(...))` removes the handle and nothing else if and only if the handle occurs once, and is undefined if and only if it does not occur. |
| `Statements.Remove` | src/actions/preparestatement_close.h:23 | The loop of `std::remove`: kept elements in front, the tail as it was. |
| `Statements.ListIsExact` | src/actions/preparestatement.h:23-28 | In every run, with handles that the connector reuses, as long as the database is there: `stmts` is the statements accepted and not closed, in order, without duplicates; no queued action uses a closed handle; `erase` is never given `end()`. |
| `Statements.StepKeepsInv` | src/luapreparedstatement_library.cpp:19-45 | The invariant of each prepare, execute, collection and finished action: queued uses of a statement lie between its prepare and its close, and a statement is usable or about to be closed; collecting the database drops the list alone. |
| `Statements.ShutdownClosesSurvivorsOnce` | src/main.cpp:72-74 | With the queue drained, the list of a database still there holds exactly the statements still usable; closing them makes every statement that the server accepted closed exactly once, except those open when the database was collected. |
| `Statements.HandlesLeftExactly` | src/luapreparedstatement.h:24-28 | With the queue drained and the survivors closed, a handle is still allocated if and only if the server refused its statement, or the statement was open when its database was collected; every statement asked for was accepted or refused, not both. |
| `Statements.RefusedHandleLeaks` | src/actions/preparestatement.h:23-26 | A run of one refused prepare whose handle survives the shutdown. |
| `Statements.OrphanedHandleLeaks` | src/main.cpp:39-43 | A run of one accepted prepare, after which the database is collected: the handle survives the shutdown although nothing was refused. |
| `Statements.StatementList.FinishPrepare` | src/actions/preparestatement.h:23-28 | In any reachable state the handle is in the list exactly once afterwards if the server accepted the statement, and not at all otherwise; the others keep their places. |
| `Statements.StatementList.FinishClose` | src/actions/preparestatement_close.h:22-24 | In any reachable state the in-place compaction and erasure removes exactly the closed handle, which is deallocated. |
| `Statements.StatementList.Delete` | src/main.cpp:39-43 | Deleting a collected database drops the list and deallocates no handle. |
| `Statements.StatementList.Shutdown` | src/main.cpp:72-74 | The hook closes each handle of the list while it is still allocated, none twice, and deallocates exactly those. |

## Left out

- Scheduler.Enabled: the collector runs, and handlers are chained onto a pending action of another promise, only between ticks, although both can also happen inside a callback.
- Scheduler.Conclude: what handlers insert during a visit is put into the queues at the end of that visit; nothing between the handler and that point reads a queue.
- Guarantees.IdleLosesExactly: references that other modules take from the same registry are not in the model.
- Scheduler.EnsurePinned: the userdata of the database is taken to be alive when an action is inserted. If a statement is finalized in the same collection as its database, `Push` yields nil, no pin is taken, and the database is collected with the close of the statement queued.
- Guarantees.ShutdownCompletes: the weak references of databases that survive to the closing loop are not released by the code, and nothing is claimed about them. The collector does not run between the ticks of the drain.
- QueryMachine.Misused: what the connector reports for a continue call on a completed fetch is arbitrary, except that it delivers no row.
- QueryRuns.QuerySettlesAsBlocking: the free is counted for delivered results only, because the code does not free the result set after a fetch error.
- ExecuteMachine.WorkerStep: the metadata probes that the code never frees are not counted, `throw "Failed to Bind"` in the worker, which ends the process, is not modelled, and worker steps are atomic (no C++ memory model).
- Binding.StatementArguments.PopulateBind: lengths are unbounded, so an `unsigned long` of 32 bits is not modelled.
- Rows.PushRow: the number `std::atof` reads and the first byte of a BIT column are named, not computed.
- SocketStatus.CheckMeaning: `POLLERR` and `POLLHUP` are not among the polled events modelled.
- Statements.ListIsExact: statements are modelled beside the scheduler, for one database with a queue of its own, first in, first out as `Guarantees.ExactlyOnceInOrder` proves of the scheduler's.
- Statements.HandlesLeftExactly: what is done with a statement after its database has been collected, its own collection included, is not modelled: the statement's pointer to the database is then no longer valid.
- Statements.ShutdownClosesSurvivorsOnce: that the queue is drained is assumed here and proved of the scheduler by `Guarantees.ShutdownCompletes`; `Shutdown.CloseAll` closes connections only.
- Promise.HistoryCallsChosen: registering a value that is neither a function nor nil is not modelled.
- Chaining onto a promise whose action has been freed: what its handler requests at once is the same as requests made by the Lua code itself.
- The fields `next` and `catch` of a new promise, which share the names of the methods (lua/promise.lua:17-18).
- `Promise:wait`, coroutines, lua/cmysql.lua and lua/oopmysql.lua.
- Callbacks that open a database during a tick: growing the deque would invalidate the loop's iterator, so opening happens between ticks.
- LAST_INSERT_ID and AFFECTED_ROWS are passed on unchanged; the conversion to `lua_Integer` and its width are not modelled.
- connect, ping, autocommit, commit, rollback and prepare are one kind of single-operation action: their start and continue functions only forward.
- Argument checks of the Lua bindings other than `execute`, `__tostring`, `queuelength`, userdata type tags, `tremove`.
