# dbcopy in Dafny

A model of the core of dbcopy, a PHP tool that copies a MySQL database from a
read server to a write server by running `mysqldump | mysql` shell pipelines.
It has three parts:

- **Copier.** The copier resolves which tables to copy. It memoises the
  resolved table list and the table-with-data list, applies two mutually
  exclusive include/exclude filter pairs, and plans the data copy of each
  table as one command or as row chunks. It then drives three phases (schema,
  data, triggers) through a processor.
  - `copier.dfy`, module `Copier`.
  - The class `Copier.Copier` has the source's fields. Its methods change them
    in place.
  - Pure functions (`ResolveTables`, `ResolveData`, `DataCommands`,
    `SchemaEvents`, `CopyAllEvents`, ...) state what each method promises.
  - How each phase ends, on success and on failure, is the value `Ending`
    (outcome, calls made, queue and running list left) computed by
    `SchemaEnding`, `RestEnding`, `CopyAllEnding` and their parts. The
    methods are proved equal to these functions, and the lemmas beside them
    say which process a failure names and how far the calls got.
- **Processor.** The processor is a bounded job scheduler. It keeps a FIFO
  queue and a running list. `run` is a poll loop: each pass starts at most one
  queued process, and only while fewer than `threads` run. It then polls the
  running processes in start order, completes the successful ones that have
  finished, and throws on the first failed one.
  - `processor.dfy`, module `Processor`.
  - The class `Processor.Processor` keeps `queued`, `running` and `threads`.
  - `Run` is the poll loop with its invariants. It is proved equal to the
    recursive specification `Drain`, about which the scheduling properties are
    proved.
  - Each operating-system process is abstract: it answers "still running" to a
    fixed number of polls, then reports whether it succeeded.
  - The processor also keeps a ghost `log` of `Added(command)` and `Ran`
    events. On it the copier's phases are specified as exact call sequences.
- **MySQL command builders.** These build the shell command strings from two
  connection configurations.
  - `mysql.dfy`, module `MySql`, with `config.dfy` (the `Config` record) and
    `dbhelper.dfy`.
  - `dbhelper.dfy` holds the value through which the copier sees the database:
    a table listing, a row-count function and the command builders.
  - Integers are rendered in decimal with `IntToString`.
  - `wiring.dfy`, module `Wiring`, builds the `DbHelper` value of the MySQL
    helper from a read and a write configuration and states what the
    copier's phases then queue.

`wrappers.dfy` holds `Option`, `Result` and `Outcome`. Thrown exceptions become
`Failure`/`Fail` values that carry the exception's message.

## Model

| member | source | states |
|---|---|---|
| Processor.StartNext | src/Processor.php:105-110 | the started process, if any, is the head of the queue (queue = started + rest); exactly one is started when the queue is non-empty and fewer than `threads` run; it joins the back of the running list with its full duration; a running list within the cap stays within it |
| Processor.StartNextWork | src/Processor.php:105-110 | a start step moves polls owed from the queue to the running list without changing their total (the loop's termination measure) |
| Processor.StartConserves | src/Processor.php:105-110 | a start step moves a process from the queue to the running list: the multiset of processes is unchanged |
| Processor.SweepRunning | src/Processor.php:113-125 | a sweep never adds to the running list |
| Processor.SweepPending | src/Processor.php:113-125 | a sweep without failure polls every running process once: the polls owed drop by the number polled |
| Processor.SweepConserves | src/Processor.php:113-125 | every running process is either kept running or finished by a sweep, none lost or duplicated |
| Processor.SweepFinishesSuccessful | src/Processor.php:119-123 | only successful processes are finished |
| Processor.SweepFailure | src/Processor.php:119-121 | a reported failure is an unsuccessful process that is still in the running list (it is not stopped or removed) |
| Processor.SweepStepRunning | src/Processor.php:115-117 | a process still running is kept, one poll nearer its end |
| Processor.SweepStepFinished | src/Processor.php:123-124 | a finished successful process leaves the running list and is appended to the finished ones |
| Processor.SweepStepFailed | src/Processor.php:119-121 | the first finished unsuccessful process ends the sweep, with it and the unpolled rest still running |
| Processor.SweptAll | src/Processor.php:113-125 | a sweep that reaches the end without failure leaves exactly the kept and finished lists |
| Processor.Drain | src/Processor.php:103-126 | a run that stops without failure leaves nothing queued and nothing running |
| Processor.DrainFailure | src/Processor.php:119-121 | the process a run fails with is unsuccessful and still running |
| Processor.DrainLeavesSuffix | src/Processor.php:105-107 | the queue only loses processes from its front: what is left is a suffix of what was queued |
| Processor.DrainExtendsCompleted | src/Processor.php:123 | completed processes are only ever appended |
| Processor.DrainCompletesSuccessful | src/Processor.php:119-123 | every completed process was successful |
| Processor.DrainKeepsCap | src/Processor.php:105 | with `threads` at least 1 and a running list within the cap, the running list is still within the cap when the run stops (the bound after every pass is an invariant of `Processor.Processor.Run`) |
| Processor.PassConserves | src/Processor.php:105-125 | one pass neither loses nor duplicates a process among queue, running list and completed list |
| Processor.DrainConserves | src/Processor.php:101-126 | a whole run neither loses nor duplicates a process |
| Processor.RunCompletesEachOnce | src/Processor.php:101-128 | a run from an idle processor that ends normally has completed every submitted process exactly once (a permutation), all successfully |
| Processor.DrainFailedQueued | src/Processor.php:103-125 | the process a run fails with is not successful and was queued or running when the run began |
| Processor.SweepSucceeds | src/Processor.php:113-125 | a sweep over successful processes reports no failure and keeps only successful ones |
| Processor.DrainSucceeds | src/Processor.php:103-126 | a run whose queued and running processes are all successful never throws |
| Processor.RunSucceedsIff | src/Processor.php:92-129 | from an idle processor a run ends normally exactly when every queued process is successful |
| Processor.StartLast | src/Processor.php:105-110 | starting the last queued process leaves it at the back of the running list |
| Processor.LoneRunning | src/Processor.php:113-125 | a lone running process is polled until it finishes, then completed or reported as the failure |
| Processor.LoneJob | src/Processor.php:92-129 | a run of one command from an idle processor completes exactly that process when it is successful; otherwise it throws with it, left in the running list with no polls left |
| Processor.PassTwo | src/Processor.php:113-125 | one pass over two successful running processes polls both, in start order |
| Processor.TwoRunning | src/Processor.php:113-125 | two successful running processes are completed in the order they finish; on a tie, in start order |
| Processor.TwoJobsCompleteInFinishingOrder | src/Processor.php:103-128 | with two threads, a command submitted second that finishes first is completed first: completion is in observation order, not submission order |
| Processor.Processor.constructor | src/Processor.php:36-42 | `threads` defaults to 1 and `timeLimit` to 0; queue and running list start empty |
| Processor.Processor.AddCommand | src/Processor.php:50-55 | appends exactly one process for the command at the end of the queue and changes nothing else |
| Processor.Processor.SetThreads | src/Processor.php:70-75 | replaces `threads` and nothing else |
| Processor.Processor.GetQueued | src/Processor.php:80-83 | returns the queue |
| Processor.Processor.CreateProcessFromCommand | src/Processor.php:61-64 | the process made for a command line runs exactly that command (its duration and outcome come from the given factory) |
| Processor.Processor.StartNextQueued | src/Processor.php:105-110 | the start step in place: the new queue and running list are those of `StartNext` |
| Processor.Processor.PollRunning | src/Processor.php:113-125 | the sweep in place: the new running list, the finished processes and the failure are those of `SweepRunning` |
| Processor.Processor.Run | src/Processor.php:92-129 | an empty queue is refused with nothing changed; otherwise the poll loop ends in the state of `Drain` and returns the completed processes, or the first failed process; started within the cap, the running list stays within `threads` after every start step and sweep |
| Copier.FirstMissing | src/Copier.php:218-222 | the validation stops within the list |
| Copier.FirstMissingIsFirst | src/Copier.php:218-222 | every entry before the reported one is available and the reported one is not: the first missing entry in list order |
| Copier.Without | src/Copier.php:233 | removing entries never lengthens the list |
| Copier.WithoutMembers | src/Copier.php:233 | a table is left exactly when it was listed and not removed |
| Copier.WithoutAppend | src/Copier.php:233 | removal keeps the order of what is left |
| Copier.ResolveTables | src/Copier.php:209-241 | a successful resolution is never empty; a non-empty memo is returned as it is |
| Copier.ResolveIncluded | src/Copier.php:217-224 | with include tables: success exactly when every one is listed, the result is then the include list in its order, and a failure names the first one missing |
| Copier.ResolveExcludedMissing | src/Copier.php:227-232 | with exclude tables of which one is not listed: the failure names the first one missing |
| Copier.ResolveExcluded | src/Copier.php:227-240 | with listed exclude tables: the result is the listing without them, in listing order, and it fails with "Tables list is empty" exactly when nothing is left |
| Copier.ResolveData | src/Copier.php:289-295 | a non-empty data memo is returned as it is; otherwise a table-resolution failure is passed on |
| Copier.ResolveDataIncluded | src/Copier.php:296-304 | include data is validated against the resolved tables, not the listing; success exactly when all are present, and the result is the include list |
| Copier.ResolveDataExcluded | src/Copier.php:306-315 | exclude data is validated against the resolved tables; the result is the tables without them, possibly empty |
| Copier.FindMissing | src/Copier.php:218-222 | the validation loop returns the index of the first unavailable entry |
| Copier.ChunkPlan | src/Copier.php:269-274 | `ChunkCommandsFrom`, the commands of the chunk loop: the chunk offsets are 0, L, 2L, ... in ascending order, all below the row count, and the next offset would not be |
| Copier.TableDataPlan | src/Copier.php:265-278 | `TableDataCommands`, the commands of one table: one full-copy command when no row limit is set or the table is within it; otherwise ceil(rows / L) chunk commands at offsets i L |
| Copier.DataCommandsAppend | src/Copier.php:263-279 | `DataCommands`, the data plan of a list of tables is the plans of its tables concatenated in table order |
| Copier.DataPlanExample | tests/CopierTest.php:240-275 | limit 50 and tables of 10, 50 and 101 rows give two full copies and three chunks at offsets 0, 50 and 100 |
| Copier.AddsShape | src/Processor.php:50-55 | queueing commands logs one `Added` event per command, in order |
| Copier.SchemaEventsShape | src/Copier.php:192-201 | `SchemaEvents`, the calls of the schema phase: the schema phase queues the create-database command and runs it, then queues each table's schema command and runs it: 1 + n runs |
| Copier.TriggerCommands | src/Copier.php:336-338 | one triggers command per table, in table order |
| Copier.SchemaRuns | src/Copier.php:195-200 | the schema phase runs the processor once per table after the create-database run |
| Copier.CopyAllRuns | src/Copier.php:173-185 | `CopyAllEvents`, the calls of a whole copy: a whole copy runs the processor n + 2 times, plus once more when triggers are copied |
| Copier.SubmittedMembers | src/Processor.php:50-55 | every queued process is the process of one of the commands, and each command has its process in the queue |
| Copier.SubmittedSuccessful | src/Processor.php:50-55 | the queued processes are all successful exactly when all the commands succeed |
| Copier.FirstFailing | src/Copier.php:198-200 | the index of the first failing schema command lies within the list |
| Copier.FirstFailingIsFirst | src/Copier.php:198-200 | every command before the first failing one succeeds and it does not; there is none exactly when all commands succeed |
| Copier.SchemaCommands | src/Copier.php:198-200 | one schema command per table, in table order |
| Copier.RunEndingSpec | src/Processor.php:92-129 | a run refuses exactly an empty queue; a failure names an unsuccessful process that was queued or running; a pass leaves the processor idle; from nothing running it passes exactly when all queued processes are successful; with everything successful it passes |
| Copier.RanQueueEnding | src/Processor.php:92-129 | a run described by `RanQueue` ends as `RunEnding` says |
| Copier.SchemaTablesEndingSpec | src/Copier.php:198-200 | the table loop passes exactly when every schema command succeeds, and then records all the schema table events; a failure names the unsuccessful process of one of the schema commands, and the log is a prefix of the table events ending at the failed run |
| Copier.SchemaTablesFailAt | src/Copier.php:198-200 | a failing command at or before the first failing index stops the loop with its process, after logging the tables up to it |
| Copier.SchemaTablesPassOn | src/Copier.php:198-200 | a succeeding command lies before the first failing index; past the last table the loop passes with all table events |
| Copier.QueuedRunSpec | src/Copier.php:259-281 | a phase that queues commands and runs once: an empty queue exactly when nothing was queued; a failure names one of the commands' processes or one queued or running before; from idle it passes exactly when there are commands and all succeed |
| Copier.SchemaEndingLog | src/Copier.php:192-201 | the schema phase ends with a run and logs a prefix of the schema events (only the create-database run when it fails or the tables do not resolve); a pass logs them all and leaves the processor idle |
| Copier.SchemaEndingFailure | src/Copier.php:192-201 | a process failure of the schema phase names an unsuccessful process that was queued or running, or the create-database or a schema command; a configuration error is that of the tables; no empty-queue error |
| Copier.SchemaSucceedsIff | src/Copier.php:192-201 | from an idle processor the schema phase passes exactly when the tables resolve and the create-database and every schema command succeed |
| Copier.DataEndingSpec | src/Copier.php:259-281 | a data-plan error fails the phase with nothing logged or changed; otherwise the data events are logged and the run ends as `QueuedRunSpec` says |
| Copier.RestLog | src/Copier.php:178-184 | from idle the data and triggers phases log nothing on a data-plan error, otherwise end with a run and log a prefix of their events, all of them on a pass |
| Copier.CopyAllLog | src/Copier.php:173-185 | a whole copy always ends with a run; its log is the create-database run alone when the tables do not resolve, a prefix of the schema events when the data tables do not, and otherwise a prefix of the whole-copy events; a pass logs all of them and leaves the processor idle |
| Copier.RestFailure | src/Copier.php:178-184 | from idle a process failure of the data and triggers phases names the unsuccessful process of a data or (when enabled) triggers command; a configuration error is the data plan's; an empty queue means no data commands or no tables |
| Copier.CopyAllFailure | src/Copier.php:173-185 | a process failure of a whole copy names an unsuccessful process that was queued or running or is one of the copy's commands; a configuration error is that of the tables or the data tables; an empty queue means no data commands or no tables for the triggers |
| Copier.RestSucceedsIff | src/Copier.php:178-184 | from idle the data and triggers phases pass exactly when the data plan resolves to commands that all succeed and, when enabled, there are tables whose triggers commands all succeed |
| Copier.CopyAllSucceedsIff | src/Copier.php:173-185 | from an idle processor a whole copy passes exactly when both table lists resolve, the data phase has commands and every command of the copy succeeds |
| Copier.CopyAllSucceeds | src/Copier.php:173-185 | whatever was queued or running, a copy passes when all of it is successful, both plans resolve, the data phase has commands and every command of the copy succeeds |
| Copier.CopyAllCommandsSucceed | src/Copier.php:173-185 | the commands of a whole copy succeed exactly when those of each phase do |
| Copier.Copier.constructor | src/Copier.php:68-72 | no row limit, triggers copied by default, nothing memoised or filtered |
| Copier.Copier.SetRowLimit | src/Copier.php:78-83 | sets the row limit |
| Copier.Copier.SetCopyTriggers | src/Copier.php:89-94 | sets whether triggers are copied |
| Copier.Copier.ExcludeTables | src/Copier.php:103-112 | refused with its message while include tables are set; otherwise replaces only the exclude list; at most one list of each pair stays non-empty |
| Copier.Copier.IncludeTables | src/Copier.php:121-130 | refused with its message while exclude tables are set; otherwise replaces only the include list; the pairs stay exclusive |
| Copier.Copier.ExcludeDataFor | src/Copier.php:139-148 | refused with its message while include data is set; otherwise replaces only the exclude-data list; the pairs stay exclusive |
| Copier.Copier.IncludeDataFor | src/Copier.php:157-166 | refused with its message while exclude data is set; otherwise replaces only the include-data list; the pairs stay exclusive |
| Copier.Copier.GetAllTables | src/Copier.php:209-241 | returns the resolution of the state it was called in and memoises a success only |
| Copier.Copier.SetAllTables | src/Copier.php:247-252 | replaces the table memo |
| Copier.Copier.GetAllTablesWithData | src/Copier.php:289-316 | returns the data resolution of the state it was called in; memoises the tables on the way and a successful result |
| Copier.Copier.SetAllTablesWithData | src/Copier.php:322-327 | replaces the data memo |
| Copier.Copier.RunAlone | src/Copier.php:195 | queues one command and runs it: the log grows by `Added(command), Ran` and the run ends as `Drain` does on the queue with the command behind it; on an idle processor it completes exactly when the command's process is successful and otherwise fails with that process |
| Copier.Copier.CopyTableSchemas | src/Copier.php:198-200 | each table's schema command is queued and run alone, in table order; the outcome, log and state are exactly `SchemaTablesEnding`: it stops at the first table whose command fails, with that process, and passes otherwise |
| Copier.Copier.CopySchema | src/Copier.php:192-201 | the outcome, log and state are exactly `SchemaEnding` of the old state: the create-database run, then the table resolution, then the table loop; success means the tables resolved and the log holds exactly the schema events; the table memo is set only when the create-database run passed and the tables resolved |
| Copier.Copier.QueueChunks | src/Copier.php:269-274 | queues exactly the table's chunk commands, in offset order |
| Copier.Copier.QueueTableData | src/Copier.php:265-278 | queues exactly the table's data plan |
| Copier.Copier.QueueData | src/Copier.php:263-279 | queues the data plans of all tables, in table order |
| Copier.Copier.CopyData | src/Copier.php:259-281 | on a resolution failure nothing is queued or run; otherwise the data plan is queued and the processor runs once, ending as `Run` does on that queue, so an empty data plan on an idle processor fails with "queue is empty" |
| Copier.Copier.QueueTriggers | src/Copier.php:336-338 | queues one triggers command per table, in table order |
| Copier.Copier.CopyTriggers | src/Copier.php:334-340 | on a resolution failure nothing is queued or run; otherwise the triggers commands are queued and the processor runs once |
| Copier.Copier.CopyRest | src/Copier.php:178-184 | after the schema phase: the outcome, log, queue and running list are exactly `RestEnding`: the data phase, then the triggers phase when enabled and the data passed; the resolved tables are kept, and the tables with data are stored once they resolve (src/Copier.php:261, 303, 315) |
| Copier.Copier.CopyAll | src/Copier.php:173-185 | the outcome, log, queue and running list are exactly `CopyAllEnding` of the old state: schema, then data, then (if enabled) triggers, the first failing phase ending the copy; a copy that succeeds made exactly the calls of a whole copy and leaves the processor idle; a table-resolution failure always fails the copy; the tables are stored once the create-database run passes and they resolve, and the tables with data once the schema phase passes and they resolve (src/Copier.php:198, 224, 240, 261) |
| MySql.NatToString | src/Helpers/MySql.php:94 | a natural number is rendered as a non-empty string of decimal digits without leading zeros |
| MySql.IntToString | src/Helpers/MySql.php:94 | an integer's rendering is non-empty and holds no space and no single quote |
| MySql.ParseIntToString | src/Helpers/MySql.php:114-119 | reading a rendered integer back gives the integer |
| MySql.IntToStringInjective | src/Helpers/MySql.php:114-119 | distinct integers are rendered differently |
| MySql.WhereClauseInjective | src/Helpers/MySql.php:117 | distinct row windows give distinct `--where` options |
| MySql.ChunkedCommandInjective | src/Helpers/MySql.php:114-119 | a chunk command determines its limit and offset |
| MySql.CommandsDetermineTable | src/Helpers/MySql.php:101-142 | the schema, data and triggers commands determine their table: distinct tables give distinct commands |
| MySql.RenderedTestNumbers | tests/Helpers/MySqlTest.php:105-129 | the tests' ports, limit and offset render as 3306, 3307, 1000 and 3000 |
| MySql.TestWhereClause | tests/Helpers/MySqlTest.php:126 | the tests' chunk window is `--where='1 limit 1000 offset 3000'` |
| MySql.TestConnectionStrings | src/Helpers/MySql.php:87-95 | the connection flags of the tests' read and write configurations are the ones the tests spell out, port first |
| MySql.TestCreateDatabaseCommand | src/Helpers/MySql.php:52-59 | for the tests' write configuration, character set and collation, the command is the test's expected string, piece by piece |
| MySql.TestSchemaCommand | src/Helpers/MySql.php:101-106 | for the tests' configurations and table, the schema command is the test's expected string, piece by piece |
| MySql.TestChunkedDataCommand | src/Helpers/MySql.php:114-119 | for the tests' configurations, table, limit 1000 and offset 3000, the chunked command is the test's expected string, piece by piece |
| MySql.TestDataCommand | src/Helpers/MySql.php:125-130 | for the tests' configurations and table, the full data command is the test's expected string, piece by piece |
| MySql.TestTriggersCommand | src/Helpers/MySql.php:136-142 | for the tests' configurations and table, the triggers command is the test's expected string, piece by piece, with the DEFINER-stripping stage |
| Wiring.HelperSchemaPhase | src/Copier.php:192-201 | with the MySQL helper (`Wiring.Helper`, the `DbHelper` value built from a read and a write configuration) the schema phase queues the write database's CREATE DATABASE command first, then the schema dump of each table, distinct for distinct tables |
| Wiring.HelperTriggerCommands | src/Copier.php:336-338 | with the MySQL helper `Wiring.Helper` the triggers phase queues each table's triggers dump, distinct for distinct tables |
| Wiring.HelperChunkCommands | src/Copier.php:269-274 | with the MySQL helper `Wiring.Helper` and a positive limit the chunk loop queues the chunked dump of each window, at offsets offset + i limit |
| Wiring.HelperChunksDistinct | src/Copier.php:269-274 | with the MySQL helper `Wiring.Helper` and a positive limit no two chunk commands of a table are equal: no window is copied twice |

## Left out

- Database access is not modelled: the PDO connection, `getTables`, `getRowCount`, `getCharacterSet` and `getCollation` (src/Helpers/MySql.php:19-81). The table listing and row counts are fields of the `DbHelper` value. The character set and collation are parameters of `CreateDatabaseCommand`.
- Symfony `Process` is abstract. `createProcessFromCommand` (src/Processor.php:61-64) is a given factory `behaviour` from a command to a duration and a success flag. `start`, `isRunning` and `isSuccessful` are the decrementing poll counter. The text of `ProcessFailedException` is not modelled.
- `set_time_limit($this->timeLimit)` (src/Processor.php:99) is a runtime setting. `timeLimit` is kept as a field and has no effect.
- Real parallelism is not modelled. The spawned commands run outside the program, and only the sequential poll loop is modelled.
- PHP's loose `in_array` comparison becomes exact string equality. `array_diff` (src/Copier.php:233, 312) keeps its keys in PHP. Here it is a plain list in the same order.
- Shell quoting is not modelled. The builders do no escaping, so the model claims none: a table name or password holding a quote ends its quoted word early.
- MySql builders: `GetConnectionString`, `CreateDatabaseCommand` and the four copy builders are functions whose bodies are the source's string interpolation. Each is specified against the tests' expected strings for the tests' configurations (the `Test*` lemmas), proved equal to the test's literal pieces in order rather than to one whole literal. For any configuration, the injectivity lemmas cover only the copy builders: `ChunkedCommandInjective` for the chunked data command and `CommandsDetermineTable` for the schema, data and triggers commands. `GetConnectionString` and `CreateDatabaseCommand` are pinned only by `TestConnectionStrings` and `TestCreateDatabaseCommand`.
- Processor.Processor.Run: requires `threads >= 1` when the queue is non-empty. With `threads <= 0` and nothing running, nothing can ever start, so the source loops forever (src/Processor.php:105). With a process left in the running list by an earlier failure (the throw at src/Processor.php:119-121 comes before the unset), the source instead throws at the first sweep; the model does not cover that case.
- Copier.Copier.CopyData and Copier.Copier.CopyAll: require every table whose row count exceeds a set row limit to have a positive limit. Otherwise the chunk loop never ends (src/Copier.php:270-274). A non-positive limit is still modelled where the loop does end (an empty table).
- PHP `null` and `[]` are one case for the memo and filter fields. The source tests them with `empty`/`!empty`, which treats them alike, so each field is a `seq` and empty means unset.
- Processor.DrainLeavesSuffix: states FIFO as "the queue left behind is a suffix of the one given". Together with `StartNext` (the started process is the head), that is submission order for starts.
- Copier.Copier.CopySchema: a table-resolution error is reported after the create-database command has run. This follows the code (src/Copier.php:195-198).
- src/Config.php is the `Config` datatype with `DefaultPort` 3306. Its getters are field accesses. example/index.php is wiring and is not part of this model.
