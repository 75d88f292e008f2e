/** The table planner and phase orchestrator of src/Copier.php.

    The copier resolves which tables to copy (and which of them with data)
    from the read database's listing and four filter lists, memoises the
    results, and hands shell commands to a processor in three phases:
    schema, data, triggers.  A thrown exception becomes a `Fail` outcome;
    the processor records every call made on it in its ghost `log`. */
module Copier {
  import opened Wrappers
  import DbHelper
  import Processor

  /** Why a copy stopped: a configuration exception of the copier (with its
      message), or one of the two exceptions of the processor's run. */
  datatype CopyError =
    | ConfigurationError(message: string)
    | QueueEmpty
    | ProcessFailed(process: Processor.Process)

  /** What a run of the processor does to queue `q` with `rs` running: an
      empty queue is refused and nothing changes; otherwise the poll loop
      leaves the state of `Processor.Drain` and fails exactly when it does. */
  ghost predicate RanQueue(q: seq<Processor.Process>, rs: seq<Processor.Started>, threads: int,
                           queued: seq<Processor.Process>, running: seq<Processor.Started>, r: Outcome<CopyError>)
  {
    && (q == [] ==> r == Fail(QueueEmpty) && queued == [] && running == rs)
    && (q != [] ==>
          && threads >= 1
          && var d := Processor.Drain(q, rs, threads, []);
          && queued == d.queued && running == d.running
          && r == (if d.failed.Some? then Fail(ProcessFailed(d.failed.value)) else Pass))
  }

  /** A thrown run becomes the exception the copier lets through. */
  function FromRun(r: Processor.RunResult): Outcome<CopyError> {
    match r
    case Completed(_) => Pass
    case QueueEmpty => Fail(QueueEmpty)
    case ProcessFailed(p) => Fail(ProcessFailed(p))
  }

  // ---------------------------------------------------------------------
  // Exception messages
  // ---------------------------------------------------------------------

  const TablesListEmpty := "Tables list is empty"
  const ExcludeWhileInclude := "Can not exclude tables when include tables is not empty."
  const IncludeWhileExclude := "Can not include tables when exclude tables is not empty."
  const ExcludeDataWhileIncludeData := "Can not exclude table data when include table data is not empty."
  const IncludeDataWhileExcludeData := "Can not include table data when exclude table data is not empty."

  function IncludedTableMissing(table: string): string {
    "Included table `" + table + "` does not exist in the read database"
  }

  function ExcludedTableMissing(table: string): string {
    "Excluded table `" + table + "` does not exist in the read database"
  }

  function IncludedDataMissing(table: string): string {
    "Table `" + table + "` was defined to include data but does not exist in table array"
  }

  function ExcludedDataMissing(table: string): string {
    "Table `" + table + "` was defined to exclude data but does not exist in table array"
  }

  // ---------------------------------------------------------------------
  // Table resolution
  // ---------------------------------------------------------------------

  /** Where the validation of `wanted` against `available` throws: the
      index of the first entry that is not available, or |wanted| if all are. */
  function FirstMissing(wanted: seq<string>, available: seq<string>): (i: nat)
    ensures i <= |wanted|
  {
    if wanted == [] || wanted[0] !in available then 0
    else 1 + FirstMissing(wanted[1..], available)
  }

  /** Every entry before the first missing one is available, and it is not. */
  lemma {:induction false} FirstMissingIsFirst(wanted: seq<string>, available: seq<string>)
    ensures var i := FirstMissing(wanted, available);
            && (forall j | 0 <= j < i :: wanted[j] in available)
            && (i < |wanted| ==> wanted[i] !in available)
  {
    if wanted != [] && wanted[0] in available {
      FirstMissingIsFirst(wanted[1..], available);
      var i := FirstMissing(wanted, available);
      forall j | 0 <= j < i ensures wanted[j] in available {
        if j > 0 {
          assert wanted[j] == wanted[1..][j - 1];
        }
      }
    }
  }

  /** `s` without the entries that occur in `removed`, in the order of `s`. */
  function Without(s: seq<string>, removed: seq<string>): (r: seq<string>)
    ensures |r| <= |s|
  {
    if s == [] then []
    else (if s[0] in removed then [] else [s[0]]) + Without(s[1..], removed)
  }

  /** What is left is exactly what was there and not removed. */
  lemma {:induction false} WithoutMembers(s: seq<string>, removed: seq<string>)
    ensures forall t :: t in Without(s, removed) <==> t in s && t !in removed
  {
    if s != [] {
      WithoutMembers(s[1..], removed);
      assert s == [s[0]] + s[1..];
    }
  }

  /** Removing entries keeps the order of what is left: it distributes over concatenation. */
  lemma {:induction false} WithoutAppend(a: seq<string>, b: seq<string>, removed: seq<string>)
    ensures Without(a + b, removed) == Without(a, removed) + Without(b, removed)
  {
    if a == [] {
      assert a + b == b;
    } else {
      assert (a + b)[0] == a[0];
      assert (a + b)[1..] == a[1..] + b;
      WithoutAppend(a[1..], b, removed);
    }
  }

  /** Removing nothing leaves the list as it is. */
  lemma {:induction false} WithoutNothing(s: seq<string>)
    ensures Without(s, []) == s
  {
    if s != [] {
      WithoutNothing(s[1..]);
    }
  }

  /** getAllTables on a given state: the memo, the read database's listing
      and the include / exclude table lists. */
  function ResolveTables(cached: seq<string>, listing: seq<string>, included: seq<string>, excluded: seq<string>)
    : (r: Result<seq<string>, string>)
    // a successful resolution is never empty, so it is always served from the memo afterwards
    ensures r.Success? ==> r.value != []
    ensures cached != [] ==> r == Success(cached)
  {
    if cached != [] then Success(cached)
    else if included != [] then
      var i := FirstMissing(included, listing);
      if i < |included| then Failure(IncludedTableMissing(included[i])) else Success(included)
    else
      var i := FirstMissing(excluded, listing);
      if excluded != [] && i < |excluded| then Failure(ExcludedTableMissing(excluded[i]))
      else
        var tables := if excluded != [] then Without(listing, excluded) else listing;
        if tables == [] then Failure(TablesListEmpty) else Success(tables)
  }

  /** With include tables: every entry must be in the listing, and the
      result is then the include list in its own order; otherwise the
      first entry missing is named. */
  lemma ResolveIncluded(listing: seq<string>, included: seq<string>, excluded: seq<string>)
    requires included != []
    ensures var r := ResolveTables([], listing, included, excluded);
            && (r.Success? <==> forall t | t in included :: t in listing)
            && (r.Success? ==> r.value == included)
            && (r.Failure? ==> r.error == IncludedTableMissing(included[FirstMissing(included, listing)]))
  {
    FirstMissingIsFirst(included, listing);
  }

  /** With exclude tables only: an entry missing from the listing is named. */
  lemma ResolveExcludedMissing(listing: seq<string>, excluded: seq<string>)
    requires exists t | t in excluded :: t !in listing
    ensures var i := FirstMissing(excluded, listing);
            && i < |excluded|
            && ResolveTables([], listing, [], excluded) == Failure(ExcludedTableMissing(excluded[i]))
  {
    FirstMissingIsFirst(excluded, listing);
  }

  /** With every exclude entry listed: the result is the listing without
      them, in listing order, and it fails exactly when nothing is left. */
  lemma ResolveExcluded(listing: seq<string>, excluded: seq<string>)
    requires forall t | t in excluded :: t in listing
    ensures var r := ResolveTables([], listing, [], excluded);
            && (r.Success? <==> exists t | t in listing :: t !in excluded)
            && (r.Success? ==> r.value == Without(listing, excluded))
            && (r.Failure? ==> r.error == TablesListEmpty)
  {
    FirstMissingIsFirst(excluded, listing);
    WithoutNothing(listing);
    WithoutMembers(listing, excluded);
    var tables := Without(listing, excluded);
    if tables != [] {
      assert tables[0] in listing && tables[0] !in excluded;
    }
  }

  /** getAllTablesWithData on a given state: the data memo, the outcome of
      getAllTables and the include / exclude data lists.  The lists are
      validated against the resolved tables, and an empty result is allowed. */
  function ResolveData(cached: seq<string>, tables: Result<seq<string>, string>, included: seq<string>, excluded: seq<string>)
    : (r: Result<seq<string>, string>)
    ensures cached != [] ==> r == Success(cached)
    ensures cached == [] && tables.Failure? ==> r == tables
  {
    if cached != [] then Success(cached)
    else if tables.Failure? then tables
    else if included != [] then
      var i := FirstMissing(included, tables.value);
      if i < |included| then Failure(IncludedDataMissing(included[i])) else Success(included)
    else
      var i := FirstMissing(excluded, tables.value);
      if excluded != [] && i < |excluded| then Failure(ExcludedDataMissing(excluded[i]))
      else Success(if excluded != [] then Without(tables.value, excluded) else tables.value)
  }

  /** With include data: validated against the resolved tables, not the
      listing; the result is the include list. */
  lemma ResolveDataIncluded(tables: seq<string>, included: seq<string>, excluded: seq<string>)
    requires included != []
    ensures var r := ResolveData([], Success(tables), included, excluded);
            && (r.Success? <==> forall t | t in included :: t in tables)
            && (r.Success? ==> r.value == included)
            && (r.Failure? ==> r.error == IncludedDataMissing(included[FirstMissing(included, tables)]))
  {
    FirstMissingIsFirst(included, tables);
  }

  /** With exclude data only: validated against the resolved tables; the
      result is the tables without them, possibly empty. */
  lemma ResolveDataExcluded(tables: seq<string>, excluded: seq<string>)
    ensures var r := ResolveData([], Success(tables), [], excluded);
            && (r.Success? <==> forall t | t in excluded :: t in tables)
            && (r.Success? ==> r.value == Without(tables, excluded))
            && (r.Failure? ==> r.error == ExcludedDataMissing(excluded[FirstMissing(excluded, tables)]))
  {
    FirstMissingIsFirst(excluded, tables);
    WithoutNothing(tables);
  }

  /** The validation loop: scan `wanted` in order for an entry not in `available`. */
  method FindMissing(wanted: seq<string>, available: seq<string>) returns (i: nat)
    ensures i == FirstMissing(wanted, available)
  {
    i := 0;
    while i < |wanted| && wanted[i] in available
      invariant i <= |wanted|
      invariant FirstMissing(wanted, available) == i + FirstMissing(wanted[i..], available)
    {
      assert wanted[i..][1..] == wanted[i + 1..];
      i := i + 1;
    }
  }

  // ---------------------------------------------------------------------
  // Command plans
  // ---------------------------------------------------------------------

  /** The event a processor records for each queued command, in order. */
  function Adds(commands: seq<string>): (es: seq<Processor.Event>)
    ensures |es| == |commands|
  {
    if commands == [] then []
    else Adds(commands[..|commands| - 1]) + [Processor.Added(commands[|commands| - 1])]
  }

  lemma AddsSnoc(commands: seq<string>, c: string)
    ensures Adds(commands + [c]) == Adds(commands) + [Processor.Added(c)]
  {
    assert (commands + [c])[..|commands|] == commands;
  }

  /** Queueing two lists of commands records the events of each, in order. */
  lemma {:induction false} AddsAppend(a: seq<string>, b: seq<string>)
    ensures Adds(a + b) == Adds(a) + Adds(b)
    decreases |b|
  {
    if b == [] {
      assert a + b == a;
    } else {
      var n := |b| - 1;
      AddsAppend(a, b[..n]);
      assert (a + b)[..|a + b| - 1] == a + b[..n];
    }
  }

  lemma AddsOne(c: string)
    ensures Adds([c]) == [Processor.Added(c)]
  {
    assert [c][..0] == [];
  }

  /** Every queued command is an `Added` event for that command, in order. */
  lemma {:induction false} AddsShape(commands: seq<string>)
    ensures forall i | 0 <= i < |commands| :: Adds(commands)[i] == Processor.Added(commands[i])
  {
    if commands != [] {
      var n := |commands| - 1;
      AddsShape(commands[..n]);
    }
  }

  /** The processes a processor queues for the given commands, in order. */
  function Submitted(p: Processor.Processor, commands: seq<string>): (ps: seq<Processor.Process>)
    ensures |ps| == |commands|
  {
    if commands == [] then []
    else Submitted(p, commands[..|commands| - 1]) + [p.CreateProcessFromCommand(commands[|commands| - 1])]
  }

  lemma SubmittedSnoc(p: Processor.Processor, commands: seq<string>, c: string)
    ensures Submitted(p, commands + [c]) == Submitted(p, commands) + [p.CreateProcessFromCommand(c)]
  {
    assert (commands + [c])[..|commands|] == commands;
  }

  lemma {:induction false} SubmittedAppend(p: Processor.Processor, a: seq<string>, b: seq<string>)
    ensures Submitted(p, a + b) == Submitted(p, a) + Submitted(p, b)
    decreases |b|
  {
    if b == [] {
      assert a + b == a;
    } else {
      var n := |b| - 1;
      SubmittedAppend(p, a, b[..n]);
      assert (a + b)[..|a + b| - 1] == a + b[..n];
    }
  }

  lemma Regroup<T>(x: seq<T>, a: seq<T>, b: seq<T>, ab: seq<T>)
    requires ab == a + b
    ensures (x + a) + b == x + ab
  {
  }

  /** Queueing one more command extends the log kept so far by its event. */
  lemma LogStep(base: seq<Processor.Event>, done: seq<string>, c: string, log0: seq<Processor.Event>, log1: seq<Processor.Event>)
    requires log0 == base + Adds(done) && log1 == log0 + [Processor.Added(c)]
    ensures log1 == base + Adds(done + [c])
  {
    AddsSnoc(done, c);
    Regroup(base, Adds(done), [Processor.Added(c)], Adds(done + [c]));
  }

  /** Queueing one more command extends the queue kept so far by its process. */
  lemma QueueStep(p: Processor.Processor, base: seq<Processor.Process>, done: seq<string>, c: string,
                  q0: seq<Processor.Process>, q1: seq<Processor.Process>)
    requires q0 == base + Submitted(p, done) && q1 == q0 + [p.CreateProcessFromCommand(c)]
    ensures q1 == base + Submitted(p, done + [c])
  {
    SubmittedSnoc(p, done, c);
    Regroup(base, Submitted(p, done), [p.CreateProcessFromCommand(c)], Submitted(p, done + [c]));
  }

  /** One more table's data commands extend the log of the data phase. */
  lemma QueueDataStep(p: Processor.Processor, db: DbHelper.DbHelper, tables: seq<string>, i: nat, rowLimit: Option<int>,
                      base: seq<Processor.Event>, log0: seq<Processor.Event>, log1: seq<Processor.Event>)
    requires i < |tables| && PlanEnds(db, rowLimit, tables)
    requires PlanEnds(db, rowLimit, tables[..i]) && log0 == base + Adds(DataCommands(db, tables[..i], rowLimit))
    requires log1 == log0 + Adds(TableDataCommands(db, tables[i], rowLimit))
    ensures PlanEnds(db, rowLimit, tables[..i + 1])
    ensures log1 == base + Adds(DataCommands(db, tables[..i + 1], rowLimit))
  {
    DataCommandsSnoc(db, tables, i, rowLimit);
    var done, more := DataCommands(db, tables[..i], rowLimit), TableDataCommands(db, tables[i], rowLimit);
    AddsAppend(done, more);
    Regroup(base, Adds(done), Adds(more), Adds(done + more));
  }

  /** One more table's data commands extend the queue of the data phase. */
  lemma QueuedDataStep(p: Processor.Processor, db: DbHelper.DbHelper, tables: seq<string>, i: nat, rowLimit: Option<int>,
                       base: seq<Processor.Process>, q0: seq<Processor.Process>, q1: seq<Processor.Process>)
    requires i < |tables| && PlanEnds(db, rowLimit, tables)
    requires PlanEnds(db, rowLimit, tables[..i]) && q0 == base + Submitted(p, DataCommands(db, tables[..i], rowLimit))
    requires q1 == q0 + Submitted(p, TableDataCommands(db, tables[i], rowLimit))
    ensures q1 == base + Submitted(p, DataCommands(db, tables[..i + 1], rowLimit))
  {
    DataCommandsSnoc(db, tables, i, rowLimit);
    var done, more := DataCommands(db, tables[..i], rowLimit), TableDataCommands(db, tables[i], rowLimit);
    SubmittedAppend(p, done, more);
    Regroup(base, Submitted(p, done), Submitted(p, more), Submitted(p, done + more));
  }

  lemma SubmittedOne(p: Processor.Processor, c: string)
    ensures Submitted(p, [c]) == [p.CreateProcessFromCommand(c)]
  {
    assert [c][..0] == [];
  }

  lemma Advance<T>(done: seq<T>, c: T, next: seq<T>, rest: seq<T>, whole: seq<T>)
    requires rest == [c] + next && done + rest == whole
    ensures (done + [c]) + next == whole
  {
    Regroup(done, [c], next, rest);
  }

  /** Whether the chunk loop for a table ends: it does unless the table is
      over a limit that is not positive and has rows to copy. */
  predicate ChunkingEnds(rowLimit: Option<int>, rows: nat) {
    rowLimit.None? || rows <= rowLimit.value || rowLimit.value > 0 || rows == 0
  }

  ghost predicate PlanEnds(db: DbHelper.DbHelper, rowLimit: Option<int>, tables: seq<string>) {
    forall i | 0 <= i < |tables| :: ChunkingEnds(rowLimit, db.rowCount(tables[i]))
  }

  lemma PlanEndsPrefix(db: DbHelper.DbHelper, rowLimit: Option<int>, tables: seq<string>, k: nat)
    requires k <= |tables| && PlanEnds(db, rowLimit, tables)
    ensures PlanEnds(db, rowLimit, tables[..k])
  {
    forall j | 0 <= j < k ensures ChunkingEnds(rowLimit, db.rowCount(tables[..k][j])) {
      assert tables[..k][j] == tables[j];
    }
  }

  /** The chunk commands of a table from `offset` on, one per `limit` rows. */
  function ChunkCommandsFrom(db: DbHelper.DbHelper, table: string, limit: int, offset: int, rows: nat): seq<string>
    requires limit > 0 || offset >= rows
    decreases if offset < rows then rows - offset else 0
  {
    if offset < rows then
      [db.copyChunkedDataCommand(table, limit, offset)] + ChunkCommandsFrom(db, table, limit, offset + limit, rows)
    else []
  }

  lemma ChunkNext(db: DbHelper.DbHelper, table: string, limit: int, offset: int, rows: nat)
    requires limit > 0 && offset < rows
    ensures ChunkCommandsFrom(db, table, limit, offset, rows)
         == [db.copyChunkedDataCommand(table, limit, offset)] + ChunkCommandsFrom(db, table, limit, offset + limit, rows)
  {
  }

  /** The chunk loop has queued `done` and is at `offset`: what is left to
      queue from there completes the table's chunk commands. */
  ghost predicate ChunksQueued(db: DbHelper.DbHelper, table: string, limit: int, rows: nat, offset: int, done: seq<string>) {
    && (limit > 0 || offset >= rows)
    && (limit > 0 || rows == 0)
    && done + ChunkCommandsFrom(db, table, limit, offset, rows) == ChunkCommandsFrom(db, table, limit, 0, rows)
  }

  lemma ChunksStart(db: DbHelper.DbHelper, table: string, limit: int, rows: nat)
    requires limit > 0 || rows == 0
    ensures ChunksQueued(db, table, limit, rows, 0, [])
  {
    assert [] + ChunkCommandsFrom(db, table, limit, 0, rows) == ChunkCommandsFrom(db, table, limit, 0, rows);
  }

  lemma ChunksStep(db: DbHelper.DbHelper, table: string, limit: int, rows: nat, offset: int, done: seq<string>)
    requires ChunksQueued(db, table, limit, rows, offset, done) && offset < rows
    ensures limit > 0
    ensures ChunksQueued(db, table, limit, rows, offset + limit, done + [db.copyChunkedDataCommand(table, limit, offset)])
  {
    var c := db.copyChunkedDataCommand(table, limit, offset);
    ChunkNext(db, table, limit, offset, rows);
    Advance(done, c, ChunkCommandsFrom(db, table, limit, offset + limit, rows),
            ChunkCommandsFrom(db, table, limit, offset, rows), ChunkCommandsFrom(db, table, limit, 0, rows));
  }

  lemma ChunksDone(db: DbHelper.DbHelper, table: string, limit: int, rows: nat, offset: int, done: seq<string>)
    requires ChunksQueued(db, table, limit, rows, offset, done) && offset >= rows
    ensures done == ChunkCommandsFrom(db, table, limit, 0, rows)
  {
    assert done + [] == done;
  }

  /** The chunk offsets are offset, offset + limit, offset + 2 limit, ..., all
      below the row count, and the next one would not be: there are
      ceil((rows - offset) / limit) chunks, the last one not clamped. */
  lemma {:induction false} ChunkPlan(db: DbHelper.DbHelper, table: string, limit: int, offset: int, rows: nat)
    requires limit > 0
    ensures var cs := ChunkCommandsFrom(db, table, limit, offset, rows);
            && (forall i | 0 <= i < |cs| ::
                  offset + i * limit < rows && cs[i] == db.copyChunkedDataCommand(table, limit, offset + i * limit))
            && offset + |cs| * limit >= rows
    decreases if offset < rows then rows - offset else 0
  {
    if offset < rows {
      var rest := ChunkCommandsFrom(db, table, limit, offset + limit, rows);
      ChunkPlan(db, table, limit, offset + limit, rows);
      ChunkNext(db, table, limit, offset, rows);
      ChunkPlanCons(db, table, limit, offset, rows, rest);
    }
  }

  /** The inductive step of ChunkPlan: the chunk at `offset` followed by the
      chunks from the next offset on. */
  lemma ChunkPlanCons(db: DbHelper.DbHelper, table: string, limit: int, offset: int, rows: nat, rest: seq<string>)
    requires limit > 0 && offset < rows
    requires forall j | 0 <= j < |rest| ::
               offset + limit + j * limit < rows && rest[j] == db.copyChunkedDataCommand(table, limit, offset + limit + j * limit)
    requires offset + limit + |rest| * limit >= rows
    ensures var cs := [db.copyChunkedDataCommand(table, limit, offset)] + rest;
            && (forall i | 0 <= i < |cs| ::
                  offset + i * limit < rows && cs[i] == db.copyChunkedDataCommand(table, limit, offset + i * limit))
            && offset + |cs| * limit >= rows
  {
    var cs := [db.copyChunkedDataCommand(table, limit, offset)] + rest;
    forall i | 0 <= i < |cs|
      ensures offset + i * limit < rows && cs[i] == db.copyChunkedDataCommand(table, limit, offset + i * limit)
    {
      if i > 0 {
        var j := i - 1;
        assert cs[i] == rest[j];
        NextMultiple(offset, j, limit);
      }
    }
    NextMultiple(offset, |rest|, limit);
  }

  lemma NextMultiple(offset: int, i: int, limit: int)
    ensures offset + limit + i * limit == offset + (i + 1) * limit
  {
  }

  /** The data commands of one table: a single full copy, or chunks when a
      row limit is set and the table has more rows than it. */
  function TableDataCommands(db: DbHelper.DbHelper, table: string, rowLimit: Option<int>): seq<string>
    requires ChunkingEnds(rowLimit, db.rowCount(table))
  {
    var rows := db.rowCount(table);
    if rowLimit.Some? && rows > rowLimit.value then ChunkCommandsFrom(db, table, rowLimit.value, 0, rows)
    else [db.copyDataCommand(table)]
  }

  /** One full copy when no row limit is set or the table is within it;
      otherwise ceil(rows / limit) chunks at offsets 0, limit, 2 limit, ... */
  lemma TableDataPlan(db: DbHelper.DbHelper, table: string, rowLimit: Option<int>)
    requires ChunkingEnds(rowLimit, db.rowCount(table))
    ensures var rows := db.rowCount(table);
            var cs := TableDataCommands(db, table, rowLimit);
            && (rowLimit.None? || rows <= rowLimit.value ==> cs == [db.copyDataCommand(table)])
            && (rowLimit.Some? && rows > rowLimit.value && rowLimit.value > 0 ==>
                  && |cs| == (rows + rowLimit.value - 1) / rowLimit.value
                  && forall i | 0 <= i < |cs| :: cs[i] == db.copyChunkedDataCommand(table, rowLimit.value, i * rowLimit.value))
            // a limit that is not positive chunks only an empty table, into nothing
            && (rowLimit.Some? && rows > rowLimit.value && rowLimit.value <= 0 ==> cs == [])
  {
    var rows := db.rowCount(table);
    if rowLimit.Some? && rows > rowLimit.value && rowLimit.value > 0 {
      var limit := rowLimit.value;
      var cs := ChunkCommandsFrom(db, table, limit, 0, rows);
      ChunkPlan(db, table, limit, 0, rows);
      assert cs != [];
      assert (|cs| - 1) * limit < rows;
      CeilingDivision(rows, limit, |cs|);
    }
  }

  /** n is ceil(x / limit) when (n - 1) limit < x <= n limit. */
  lemma CeilingDivision(x: int, limit: int, n: int)
    requires limit > 0 && (n - 1) * limit < x <= n * limit
    ensures (x + limit - 1) / limit == n
  {
    var y := x + limit - 1;
    var q, r := y / limit, y % limit;
    assert (n - 1) * limit + limit == n * limit;
    assert (q - n) * limit == y - r - n * limit;
    SmallMultiple(q - n, limit);
  }

  /** The only multiple of a positive number strictly between its negation and itself is 0. */
  lemma SmallMultiple(k: int, limit: int)
    requires limit > 0 && -limit < k * limit < limit
    ensures k == 0
  {
  }

  /** The data commands of the data phase, table by table in order. */
  function DataCommands(db: DbHelper.DbHelper, tables: seq<string>, rowLimit: Option<int>): seq<string>
    requires PlanEnds(db, rowLimit, tables)
  {
    if tables == [] then []
    else
      var n := |tables| - 1;
      PlanEndsPrefix(db, rowLimit, tables, n);
      DataCommands(db, tables[..n], rowLimit) + TableDataCommands(db, tables[n], rowLimit)
  }

  /** The data phase plans the tables in order: the commands of a
      concatenation are the commands of each part, one after the other. */
  lemma {:induction false} DataCommandsAppend(db: DbHelper.DbHelper, a: seq<string>, b: seq<string>, rowLimit: Option<int>)
    requires PlanEnds(db, rowLimit, a) && PlanEnds(db, rowLimit, b)
    ensures PlanEnds(db, rowLimit, a + b)
    ensures DataCommands(db, a + b, rowLimit) == DataCommands(db, a, rowLimit) + DataCommands(db, b, rowLimit)
    decreases |b|
  {
    assert PlanEnds(db, rowLimit, a + b) by {
      forall i | 0 <= i < |a + b| ensures ChunkingEnds(rowLimit, db.rowCount((a + b)[i])) {
        if i >= |a| {
          assert (a + b)[i] == b[i - |a|];
        }
      }
    }
    if b == [] {
      assert a + b == a;
    } else {
      var n := |b| - 1;
      PlanEndsPrefix(db, rowLimit, b, n);
      DataCommandsAppend(db, a, b[..n], rowLimit);
      assert (a + b)[..|a + b| - 1] == a + b[..n];
      assert (a + b)[|a + b| - 1] == b[n];
    }
  }

  /** One table's commands are appended by one more table's plan. */
  lemma DataCommandsSnoc(db: DbHelper.DbHelper, tables: seq<string>, i: nat, rowLimit: Option<int>)
    requires i < |tables| && PlanEnds(db, rowLimit, tables)
    ensures PlanEnds(db, rowLimit, tables[..i]) && PlanEnds(db, rowLimit, tables[..i + 1])
    ensures DataCommands(db, tables[..i + 1], rowLimit)
         == DataCommands(db, tables[..i], rowLimit) + TableDataCommands(db, tables[i], rowLimit)
  {
    PlanEndsPrefix(db, rowLimit, tables, i);
    PlanEndsPrefix(db, rowLimit, tables, i + 1);
    assert tables[..i + 1][..i] == tables[..i];
    assert tables[..i + 1][i] == tables[i];
  }

  /** The schema phase: the create-database command runs alone, then each
      table's schema command runs alone. */
  function SchemaTableEvents(db: DbHelper.DbHelper, tables: seq<string>): seq<Processor.Event> {
    if tables == [] then []
    else
      var n := |tables| - 1;
      SchemaTableEvents(db, tables[..n]) + [Processor.Added(db.copySchemaCommand(tables[n])), Processor.Ran]
  }

  function SchemaEvents(db: DbHelper.DbHelper, tables: seq<string>): seq<Processor.Event> {
    [Processor.Added(db.createDatabaseCommand), Processor.Ran] + SchemaTableEvents(db, tables)
  }

  /** The schema phase makes 1 + n runs: event 2i is the create-database or
      i-th table's command, and the event after each is a run. */
  lemma {:induction false} SchemaEventsShape(db: DbHelper.DbHelper, tables: seq<string>)
    ensures var es := SchemaEvents(db, tables);
            && |es| == 2 + 2 * |tables|
            && es[0] == Processor.Added(db.createDatabaseCommand)
            && (forall i | 0 <= i < |tables| :: es[2 + 2 * i] == Processor.Added(db.copySchemaCommand(tables[i])))
            && (forall i | 0 <= i <= |tables| :: es[1 + 2 * i] == Processor.Ran)
  {
    if tables != [] {
      var n := |tables| - 1;
      SchemaEventsShape(db, tables[..n]);
      var es := SchemaEvents(db, tables);
      var prev := SchemaEvents(db, tables[..n]);
      assert es == prev + [Processor.Added(db.copySchemaCommand(tables[n])), Processor.Ran];
      forall i | 0 <= i < |tables| ensures es[2 + 2 * i] == Processor.Added(db.copySchemaCommand(tables[i])) {
        if i < n {
          assert tables[..n][i] == tables[i];
        }
      }
    }
  }

  /** The schema events of the first k tables begin those of all of them. */
  lemma {:induction false} SchemaEventsPrefix(db: DbHelper.DbHelper, tables: seq<string>, k: nat)
    requires k <= |tables|
    ensures SchemaTableEvents(db, tables[..k]) <= SchemaTableEvents(db, tables)
    decreases |tables|
  {
    if k < |tables| {
      var n := |tables| - 1;
      assert tables[..n][..k] == tables[..k];
      SchemaEventsPrefix(db, tables[..n], k);
    } else {
      assert tables[..k] == tables;
    }
  }

  lemma SchemaEventsSnoc(db: DbHelper.DbHelper, tables: seq<string>, i: nat)
    requires i < |tables|
    ensures SchemaTableEvents(db, tables[..i + 1])
         == SchemaTableEvents(db, tables[..i]) + [Processor.Added(db.copySchemaCommand(tables[i])), Processor.Ran]
  {
    assert tables[..i + 1][..i] == tables[..i];
  }

  /** The triggers phase: one command per table, in order. */
  function TriggerCommands(db: DbHelper.DbHelper, tables: seq<string>): (cs: seq<string>)
    ensures |cs| == |tables|
    ensures forall i | 0 <= i < |tables| :: cs[i] == db.copyTriggersCommand(tables[i])
  {
    if tables == [] then []
    else
      var n := |tables| - 1;
      var init := TriggerCommands(db, tables[..n]);
      assert forall i | 0 <= i < n :: tables[..n][i] == tables[i];
      init + [db.copyTriggersCommand(tables[n])]
  }

  lemma TriggerCommandsSnoc(db: DbHelper.DbHelper, tables: seq<string>, i: nat)
    requires i < |tables|
    ensures TriggerCommands(db, tables[..i + 1]) == TriggerCommands(db, tables[..i]) + [db.copyTriggersCommand(tables[i])]
  {
    assert tables[..i + 1][..i] == tables[..i];
  }

  /** One more table's triggers command extends the log and the queue of the triggers phase. */
  lemma TriggerStep(p: Processor.Processor, db: DbHelper.DbHelper, tables: seq<string>, i: nat,
                    base: seq<Processor.Event>, log0: seq<Processor.Event>, log1: seq<Processor.Event>,
                    qbase: seq<Processor.Process>, q0: seq<Processor.Process>, q1: seq<Processor.Process>)
    requires i < |tables|
    requires log0 == base + Adds(TriggerCommands(db, tables[..i]))
    requires log1 == log0 + [Processor.Added(db.copyTriggersCommand(tables[i]))]
    requires q0 == qbase + Submitted(p, TriggerCommands(db, tables[..i]))
    requires q1 == q0 + [p.CreateProcessFromCommand(db.copyTriggersCommand(tables[i]))]
    ensures log1 == base + Adds(TriggerCommands(db, tables[..i + 1]))
    ensures q1 == qbase + Submitted(p, TriggerCommands(db, tables[..i + 1]))
  {
    var done, c := TriggerCommands(db, tables[..i]), db.copyTriggersCommand(tables[i]);
    TriggerCommandsSnoc(db, tables, i);
    AddsSnoc(done, c);
    SubmittedSnoc(p, done, c);
    Regroup(base, Adds(done), [Processor.Added(c)], Adds(done + [c]));
    Regroup(qbase, Submitted(p, done), [p.CreateProcessFromCommand(c)], Submitted(p, done + [c]));
  }

  /** The plan of the data-phase example: with a row limit of 50, tables of
      10, 50 and 101 rows give five commands, the last table in chunks at
      offsets 0, 50 and 100. */
  lemma DataPlanExample(db: DbHelper.DbHelper)
    requires db.rowCount("t1") == 10 && db.rowCount("t2") == 50 && db.rowCount("t3") == 101
    ensures PlanEnds(db, Some(50), ["t1", "t2", "t3"])
    ensures DataCommands(db, ["t1", "t2", "t3"], Some(50))
         == [db.copyDataCommand("t1"), db.copyDataCommand("t2"),
             db.copyChunkedDataCommand("t3", 50, 0), db.copyChunkedDataCommand("t3", 50, 50),
             db.copyChunkedDataCommand("t3", 50, 100)]
  {
    var ts := ["t1", "t2", "t3"];
    assert PlanEnds(db, Some(50), ts);
    var t3 := [db.copyChunkedDataCommand("t3", 50, 0), db.copyChunkedDataCommand("t3", 50, 50),
               db.copyChunkedDataCommand("t3", 50, 100)];
    assert TableDataCommands(db, "t3", Some(50)) == t3 by {
      assert ChunkCommandsFrom(db, "t3", 50, 150, 101) == [];
      assert ChunkCommandsFrom(db, "t3", 50, 100, 101) == [db.copyChunkedDataCommand("t3", 50, 100)];
      assert ChunkCommandsFrom(db, "t3", 50, 50, 101) == t3[1..];
    }
    assert ts[..2] == ["t1", "t2"];
    assert DataCommands(db, ["t1"], Some(50)) == [db.copyDataCommand("t1")] by {
      assert ["t1"][..0] == [];
    }
    assert DataCommands(db, ["t1", "t2"], Some(50)) == [db.copyDataCommand("t1"), db.copyDataCommand("t2")] by {
      assert ["t1", "t2"][..1] == ["t1"];
    }
  }

  /** How many runs of the processor a sequence of events makes. */
  function Runs(es: seq<Processor.Event>): nat {
    if es == [] then 0 else (if es[0].Ran? then 1 else 0) + Runs(es[1..])
  }

  lemma {:induction false} RunsAppend(a: seq<Processor.Event>, b: seq<Processor.Event>)
    ensures Runs(a + b) == Runs(a) + Runs(b)
  {
    if a != [] {
      assert (a + b)[0] == a[0];
      assert (a + b)[1..] == a[1..] + b;
      RunsAppend(a[1..], b);
    } else {
      assert a + b == b;
    }
  }

  /** Queueing commands runs nothing. */
  lemma {:induction false} AddsRunNothing(commands: seq<string>)
    ensures Runs(Adds(commands)) == 0
  {
    if commands != [] {
      var n := |commands| - 1;
      AddsRunNothing(commands[..n]);
      RunsAppend(Adds(commands[..n]), [Processor.Added(commands[n])]);
    }
  }

  /** The schema phase runs once per table, after the create-database run. */
  lemma {:induction false} SchemaRuns(db: DbHelper.DbHelper, tables: seq<string>)
    ensures Runs(SchemaTableEvents(db, tables)) == |tables|
    ensures Runs(SchemaEvents(db, tables)) == 1 + |tables|
  {
    if tables != [] {
      var n := |tables| - 1;
      SchemaRuns(db, tables[..n]);
      RunsAppend(SchemaTableEvents(db, tables[..n]), [Processor.Added(db.copySchemaCommand(tables[n])), Processor.Ran]);
    }
    RunsAppend([Processor.Added(db.createDatabaseCommand), Processor.Ran], SchemaTableEvents(db, tables));
  }

  /** The events of the data phase: its commands queued, then one run. */
  function DataPhaseEvents(db: DbHelper.DbHelper, dataTables: seq<string>, rowLimit: Option<int>): seq<Processor.Event>
    requires PlanEnds(db, rowLimit, dataTables)
  {
    Adds(DataCommands(db, dataTables, rowLimit)) + [Processor.Ran]
  }

  /** The events of the triggers phase: its commands queued, then one run. */
  function TriggerPhaseEvents(db: DbHelper.DbHelper, tables: seq<string>): seq<Processor.Event> {
    Adds(TriggerCommands(db, tables)) + [Processor.Ran]
  }

  /** The events after the schema phase: data, then triggers when enabled. */
  function RestEvents(db: DbHelper.DbHelper, tables: seq<string>, dataTables: seq<string>,
                      rowLimit: Option<int>, copyTriggers: bool): seq<Processor.Event>
    requires PlanEnds(db, rowLimit, dataTables)
  {
    DataPhaseEvents(db, dataTables, rowLimit) + (if copyTriggers then TriggerPhaseEvents(db, tables) else [])
  }

  /** The events of a whole copy: schema, data, then triggers when enabled. */
  function CopyAllEvents(db: DbHelper.DbHelper, tables: seq<string>, dataTables: seq<string>,
                         rowLimit: Option<int>, copyTriggers: bool): seq<Processor.Event>
    requires PlanEnds(db, rowLimit, dataTables)
  {
    SchemaEvents(db, tables) + RestEvents(db, tables, dataTables, rowLimit, copyTriggers)
  }

  /** A whole copy runs the processor 1 + n times for the schema, once for
      the data, and once more for the triggers when they are copied. */
  lemma CopyAllRuns(db: DbHelper.DbHelper, tables: seq<string>, dataTables: seq<string>,
                    rowLimit: Option<int>, copyTriggers: bool)
    requires PlanEnds(db, rowLimit, dataTables)
    ensures Runs(CopyAllEvents(db, tables, dataTables, rowLimit, copyTriggers))
         == |tables| + 2 + (if copyTriggers then 1 else 0)
  {
    SchemaRuns(db, tables);
    var data := Adds(DataCommands(db, dataTables, rowLimit));
    AddsRunNothing(DataCommands(db, dataTables, rowLimit));
    RunsAppend(data, [Processor.Ran]);
    var triggers: seq<Processor.Event> := if copyTriggers then TriggerPhaseEvents(db, tables) else [];
    if copyTriggers {
      AddsRunNothing(TriggerCommands(db, tables));
      RunsAppend(Adds(TriggerCommands(db, tables)), [Processor.Ran]);
    }
    RunsAppend(DataPhaseEvents(db, dataTables, rowLimit), triggers);
    RunsAppend(SchemaEvents(db, tables), RestEvents(db, tables, dataTables, rowLimit, copyTriggers));
  }

  // ---------------------------------------------------------------------
  // How the phases end
  // ---------------------------------------------------------------------

  /** Every process created for a list of commands is the process of one of
      them, and every command of the list gets its process. */
  lemma {:induction false} SubmittedMembers(p: Processor.Processor, commands: seq<string>)
    ensures forall x | x in Submitted(p, commands) :: x == p.CreateProcessFromCommand(x.command) && x.command in commands
    ensures forall c | c in commands :: p.CreateProcessFromCommand(c) in Submitted(p, commands)
  {
    if commands != [] {
      var n := |commands| - 1;
      SubmittedMembers(p, commands[..n]);
      assert commands == commands[..n] + [commands[n]];
    }
  }

  /** Whether every command of a list runs successfully on processor p. */
  ghost predicate AllSucceed(p: Processor.Processor, commands: seq<string>) {
    forall c | c in commands :: p.CreateProcessFromCommand(c).successful
  }

  /** The processes of a list of commands are all successful exactly when the commands all succeed. */
  lemma SubmittedSuccessful(p: Processor.Processor, commands: seq<string>)
    ensures Processor.AllSuccessful(Submitted(p, commands)) <==> AllSucceed(p, commands)
  {
    SubmittedMembers(p, commands);
  }

  lemma AllSucceedAppend(p: Processor.Processor, a: seq<string>, b: seq<string>)
    ensures AllSucceed(p, a + b) <==> AllSucceed(p, a) && AllSucceed(p, b)
  {
  }

  /** The index of the first command that fails on p, or |commands| when none does. */
  function FirstFailing(p: Processor.Processor, commands: seq<string>): (i: nat)
    ensures i <= |commands|
  {
    if commands == [] || !p.CreateProcessFromCommand(commands[0]).successful then 0
    else 1 + FirstFailing(p, commands[1..])
  }

  /** Every command before the first failing one succeeds and it does not;
      there is none exactly when all commands succeed. */
  lemma {:induction false} FirstFailingIsFirst(p: Processor.Processor, commands: seq<string>)
    ensures var i := FirstFailing(p, commands);
            && (forall j | 0 <= j < i :: p.CreateProcessFromCommand(commands[j]).successful)
            && (i < |commands| ==> !p.CreateProcessFromCommand(commands[i]).successful)
            && (i == |commands| <==> AllSucceed(p, commands))
  {
    var i := FirstFailing(p, commands);
    if commands != [] && p.CreateProcessFromCommand(commands[0]).successful {
      FirstFailingIsFirst(p, commands[1..]);
      forall j | 0 <= j < i ensures p.CreateProcessFromCommand(commands[j]).successful {
        if j > 0 {
          assert commands[j] == commands[1..][j - 1];
        }
      }
      assert commands == [commands[0]] + commands[1..];
    }
    if i == |commands| {
      forall c | c in commands ensures p.CreateProcessFromCommand(c).successful {
        var j :| 0 <= j < |commands| && commands[j] == c;
      }
    }
  }

  /** The schema commands of the tables, one per table, in order. */
  function SchemaCommands(db: DbHelper.DbHelper, tables: seq<string>): (cs: seq<string>)
    ensures |cs| == |tables|
    ensures forall i | 0 <= i < |tables| :: cs[i] == db.copySchemaCommand(tables[i])
  {
    if tables == [] then [] else [db.copySchemaCommand(tables[0])] + SchemaCommands(db, tables[1..])
  }

  /** How a phase, or several in a row, ends: the outcome, the calls recorded
      on the processor, and the queue and running list left behind. */
  datatype Ending = Ending(outcome: Outcome<CopyError>, events: seq<Processor.Event>,
                           queued: seq<Processor.Process>, running: seq<Processor.Started>)

  /** Whatever ends like `a` and then like `b`. */
  function Then(a: Ending, b: Ending): Ending {
    Ending(b.outcome, a.events + b.events, b.queued, b.running)
  }

  /** A phase that records `events` and runs the processor once, on queue q
      with rs running: an empty queue is refused, otherwise the poll loop runs. */
  function RunEnding(q: seq<Processor.Process>, rs: seq<Processor.Started>, threads: int, events: seq<Processor.Event>): Ending
    requires q != [] ==> threads >= 1
  {
    if q == [] then Ending(Fail(QueueEmpty), events, q, rs)
    else
      var d := Processor.Drain(q, rs, threads, []);
      Ending(if d.failed.Some? then Fail(ProcessFailed(d.failed.value)) else Pass, events, d.queued, d.running)
  }

  /** A run refuses exactly an empty queue; a failure names a process that
      was queued or running and is not successful; a run that passes leaves
      the processor idle; from nothing running it passes exactly when every
      queued process is successful. */
  lemma RunEndingSpec(q: seq<Processor.Process>, rs: seq<Processor.Started>, threads: int, events: seq<Processor.Event>)
    requires q != [] ==> threads >= 1
    ensures var e := RunEnding(q, rs, threads, events);
            && e.events == events
            && (e.outcome == Fail(QueueEmpty) <==> q == [])
            && (e.outcome.Pass? ==> e.queued == [] && e.running == [])
            && (e.outcome.Fail? && e.outcome.error.ProcessFailed? ==>
                  !e.outcome.error.process.successful
                  && (e.outcome.error.process in q || e.outcome.error.process in Processor.Processes(rs)))
            && (!e.outcome.Fail? || e.outcome.error.QueueEmpty? || e.outcome.error.ProcessFailed?)
            && (rs == [] ==> (e.outcome.Pass? <==> q != [] && Processor.AllSuccessful(q)))
            && (q != [] && Processor.AllSuccessful(q) && Processor.AllSuccessful(Processor.Processes(rs)) ==> e.outcome.Pass?)
  {
    if q != [] {
      Processor.DrainFailedQueued(q, rs, threads);
      if Processor.AllSuccessful(q) && Processor.AllSuccessful(Processor.Processes(rs)) {
        Processor.DrainSucceeds(q, rs, threads, []);
      }
      if rs == [] {
        Processor.RunSucceedsIff(q, threads);
      }
    }
  }

  /** A run records its events, and one that passes leaves the processor idle. */
  lemma RunEndingIdle(q: seq<Processor.Process>, rs: seq<Processor.Started>, threads: int, events: seq<Processor.Event>)
    requires q != [] ==> threads >= 1
    ensures var e := RunEnding(q, rs, threads, events);
            e.events == events && (e.outcome.Pass? ==> e.queued == [] && e.running == [])
  {
    RunEndingSpec(q, rs, threads, events);
  }

  /** A processor run whose result and state RanQueue describes ends as RunEnding says. */
  lemma RanQueueEnding(q: seq<Processor.Process>, rs: seq<Processor.Started>, threads: int,
                       queued: seq<Processor.Process>, running: seq<Processor.Started>, r: Outcome<CopyError>,
                       events: seq<Processor.Event>)
    requires RanQueue(q, rs, threads, queued, running, r)
    ensures RunEnding(q, rs, threads, events) == Ending(r, events, queued, running)
  {
  }

  /** The table loop of the schema phase from an idle processor: each table's
      command runs alone, and the first that fails stops the loop, left
      running as the poll loop leaves it. */
  function SchemaTablesEnding(p: Processor.Processor, db: DbHelper.DbHelper, tables: seq<string>): Ending {
    var cs := SchemaCommands(db, tables);
    var i := FirstFailing(p, cs);
    if i == |tables| then Ending(Pass, SchemaTableEvents(db, tables), [], [])
    else
      var f := p.CreateProcessFromCommand(cs[i]);
      Ending(Fail(ProcessFailed(f)), SchemaTableEvents(db, tables[..i + 1]), [], [Processor.Started(f, 0)])
  }

  /** The table loop stops at the first table whose schema command fails. */
  lemma SchemaTablesFailAt(p: Processor.Processor, db: DbHelper.DbHelper, tables: seq<string>, i: nat)
    requires i < |tables| && i <= FirstFailing(p, SchemaCommands(db, tables))
    requires !p.CreateProcessFromCommand(db.copySchemaCommand(tables[i])).successful
    ensures var f := p.CreateProcessFromCommand(db.copySchemaCommand(tables[i]));
            SchemaTablesEnding(p, db, tables)
            == Ending(Fail(ProcessFailed(f)), SchemaTableEvents(db, tables[..i + 1]), [], [Processor.Started(f, 0)])
  {
    var cs := SchemaCommands(db, tables);
    assert cs[i] == db.copySchemaCommand(tables[i]);
    FirstFailingAt(p, cs, i);
  }

  /** A failing command no later than the first failing one is the first. */
  lemma FirstFailingAt(p: Processor.Processor, commands: seq<string>, i: nat)
    requires i < |commands| && i <= FirstFailing(p, commands)
    requires !p.CreateProcessFromCommand(commands[i]).successful
    ensures FirstFailing(p, commands) == i
  {
    FirstFailingIsFirst(p, commands);
  }

  /** The table loop goes past every table whose schema command succeeds,
      and passes once it has gone past them all. */
  lemma SchemaTablesPassOn(p: Processor.Processor, db: DbHelper.DbHelper, tables: seq<string>, i: nat)
    requires i < |tables| && i <= FirstFailing(p, SchemaCommands(db, tables))
    requires p.CreateProcessFromCommand(db.copySchemaCommand(tables[i])).successful
    ensures i + 1 <= FirstFailing(p, SchemaCommands(db, tables))
    ensures i + 1 == |tables| ==> SchemaTablesEnding(p, db, tables) == Ending(Pass, SchemaTableEvents(db, tables), [], [])
  {
    var cs := SchemaCommands(db, tables);
    assert cs[i] == db.copySchemaCommand(tables[i]);
    FirstFailingIsFirst(p, cs);
  }

  /** Whether a sequence of events finishes with a run of the processor. */
  predicate EndsWithRun(es: seq<Processor.Event>) {
    |es| > 0 && es[|es| - 1] == Processor.Ran
  }

  /** The table loop passes exactly when every schema command succeeds, and
      then records the whole schema table events; otherwise it fails with
      the process of a schema command that is not successful, and what it
      recorded is a prefix of those events ending at the failed run. */
  lemma SchemaTablesEndingSpec(p: Processor.Processor, db: DbHelper.DbHelper, tables: seq<string>)
    ensures var e := SchemaTablesEnding(p, db, tables);
            && (e.outcome.Pass? <==> AllSucceed(p, SchemaCommands(db, tables)))
            && (e.outcome.Pass? ==> e.events == SchemaTableEvents(db, tables) && e.queued == [] && e.running == [])
            && (e.outcome.Fail? ==>
                  && e.outcome.error.ProcessFailed?
                  && var f := e.outcome.error.process;
                  && !f.successful && f == p.CreateProcessFromCommand(f.command)
                  && f.command in SchemaCommands(db, tables)
                  && EndsWithRun(e.events))
            && e.events <= SchemaTableEvents(db, tables)
  {
    var cs := SchemaCommands(db, tables);
    var i := FirstFailing(p, cs);
    FirstFailingIsFirst(p, cs);
    if i < |tables| {
      SchemaEventsPrefix(db, tables, i + 1);
      SchemaEventsSnoc(db, tables, i);
    }
  }

  /** The create-database run of the schema phase, behind whatever was queued. */
  function CreateEnding(p: Processor.Processor, db: DbHelper.DbHelper, q: seq<Processor.Process>,
                        rs: seq<Processor.Started>, threads: int): Ending
    requires threads >= 1
  {
    RunEnding(q + [p.CreateProcessFromCommand(db.createDatabaseCommand)], rs, threads,
              [Processor.Added(db.createDatabaseCommand), Processor.Ran])
  }

  /** The schema phase: the create-database run, then the table resolution
      `tr`, then the table loop. */
  function SchemaEnding(p: Processor.Processor, db: DbHelper.DbHelper, q: seq<Processor.Process>,
                        rs: seq<Processor.Started>, threads: int, tr: Result<seq<string>, string>): Ending
    requires threads >= 1
  {
    var first := CreateEnding(p, db, q, rs, threads);
    if first.outcome.Fail? then first
    else if tr.Failure? then Ending(Fail(ConfigurationError(tr.error)), first.events, first.queued, first.running)
    else Then(first, SchemaTablesEnding(p, db, tr.value))
  }

  /** The data phase on the resolution `td` of the tables with data. */
  function DataEnding(p: Processor.Processor, db: DbHelper.DbHelper, q: seq<Processor.Process>,
                      rs: seq<Processor.Started>, threads: int, td: Result<seq<string>, string>, rowLimit: Option<int>): Ending
    requires threads >= 1 && (td.Success? ==> PlanEnds(db, rowLimit, td.value))
  {
    if td.Failure? then Ending(Fail(ConfigurationError(td.error)), [], q, rs)
    else RunEnding(q + Submitted(p, DataCommands(db, td.value, rowLimit)), rs, threads, DataPhaseEvents(db, td.value, rowLimit))
  }

  /** The triggers phase on resolved tables. */
  function TriggersEnding(p: Processor.Processor, db: DbHelper.DbHelper, q: seq<Processor.Process>,
                          rs: seq<Processor.Started>, threads: int, tables: seq<string>): Ending
    requires threads >= 1
  {
    RunEnding(q + Submitted(p, TriggerCommands(db, tables)), rs, threads, TriggerPhaseEvents(db, tables))
  }

  /** The data phase, then the triggers phase when enabled and the data passed. */
  function RestEnding(p: Processor.Processor, db: DbHelper.DbHelper, q: seq<Processor.Process>,
                      rs: seq<Processor.Started>, threads: int, tables: seq<string>,
                      td: Result<seq<string>, string>, rowLimit: Option<int>, copyTriggers: bool): Ending
    requires threads >= 1 && (td.Success? ==> PlanEnds(db, rowLimit, td.value))
  {
    var d := DataEnding(p, db, q, rs, threads, td, rowLimit);
    if d.outcome.Fail? || !copyTriggers then d
    else Then(d, TriggersEnding(p, db, d.queued, d.running, threads, tables))
  }

  /** A whole copy: schema, then data, then triggers when enabled; the first
      phase that fails ends it. */
  function CopyAllEnding(p: Processor.Processor, db: DbHelper.DbHelper, q: seq<Processor.Process>,
                         rs: seq<Processor.Started>, threads: int, tr: Result<seq<string>, string>,
                         td: Result<seq<string>, string>, rowLimit: Option<int>, copyTriggers: bool): Ending
    requires threads >= 1 && (td.Success? ==> PlanEnds(db, rowLimit, td.value))
  {
    var s := SchemaEnding(p, db, q, rs, threads, tr);
    if s.outcome.Fail? || tr.Failure? then s
    else Then(s, RestEnding(p, db, s.queued, s.running, threads, tr.value, td, rowLimit, copyTriggers))
  }

  /** Every command a full copy may hand to the processor, in the order it does. */
  function CopyAllCommands(db: DbHelper.DbHelper, tr: Result<seq<string>, string>, td: Result<seq<string>, string>,
                           rowLimit: Option<int>, copyTriggers: bool): seq<string>
    requires td.Success? ==> PlanEnds(db, rowLimit, td.value)
  {
    [db.createDatabaseCommand] +
    (if tr.Failure? then []
     else SchemaCommands(db, tr.value) + (if td.Success? then DataCommands(db, td.value, rowLimit) else []) +
          (if copyTriggers then TriggerCommands(db, tr.value) else []))
  }

  lemma PrefixAppend<T>(a: seq<T>, b: seq<T>, c: seq<T>)
    requires b <= c
    ensures a + b <= a + c
  {
    assert a + b == (a + c)[..|a + b|];
  }

  lemma PrefixExtend<T>(b: seq<T>, c: seq<T>, d: seq<T>)
    requires b <= c
    ensures b <= c + d
  {
    assert b == (c + d)[..|b|];
  }

  lemma EndsWithRunAppend(a: seq<Processor.Event>, b: seq<Processor.Event>)
    requires EndsWithRun(b)
    ensures EndsWithRun(a + b)
  {
  }

  /** A phase that queues the processes of `commands` and runs them: a
      failure names one of them or a process that was already queued or
      running; from an idle processor it passes exactly when there are
      commands and all succeed. */
  lemma QueuedRunSpec(p: Processor.Processor, q: seq<Processor.Process>, rs: seq<Processor.Started>, threads: int,
                      commands: seq<string>, events: seq<Processor.Event>)
    requires threads >= 1
    ensures var e := RunEnding(q + Submitted(p, commands), rs, threads, events);
            && e.events == events
            && (e.outcome == Fail(QueueEmpty) <==> q == [] && commands == [])
            && (e.outcome.Pass? ==> e.queued == [] && e.running == [])
            && (e.outcome.Fail? && e.outcome.error.ProcessFailed? ==>
                  var f := e.outcome.error.process;
                  && !f.successful
                  && (f in q || f in Processor.Processes(rs) || (f == p.CreateProcessFromCommand(f.command) && f.command in commands)))
            && (!e.outcome.Fail? || e.outcome.error.QueueEmpty? || e.outcome.error.ProcessFailed?)
            && (q == [] && rs == [] ==> (e.outcome.Pass? <==> commands != [] && AllSucceed(p, commands)))
  {
    var qs := q + Submitted(p, commands);
    var e := RunEnding(qs, rs, threads, events);
    assert && e.events == events
           && (e.outcome == Fail(QueueEmpty) <==> qs == [])
           && (e.outcome.Pass? ==> e.queued == [] && e.running == [])
           && (!e.outcome.Fail? || e.outcome.error.QueueEmpty? || e.outcome.error.ProcessFailed?)
    by {
      RunEndingSpec(qs, rs, threads, events);
    }
    QueuedRunFailed(p, q, rs, threads, commands, events);
    if q == [] && rs == [] {
      assert qs == Submitted(p, commands);
      assert e.outcome.Pass? <==> qs != [] && Processor.AllSuccessful(qs) by {
        RunEndingSpec(qs, rs, threads, events);
      }
      SubmittedSuccessful(p, commands);
    }
  }

  /** A failure of such a phase names an unsuccessful process that was
      queued or running before, or that of one of `commands`. */
  lemma QueuedRunFailed(p: Processor.Processor, q: seq<Processor.Process>, rs: seq<Processor.Started>, threads: int,
                        commands: seq<string>, events: seq<Processor.Event>)
    requires threads >= 1
    ensures var e := RunEnding(q + Submitted(p, commands), rs, threads, events);
            e.outcome.Fail? && e.outcome.error.ProcessFailed? ==>
              var f := e.outcome.error.process;
              && !f.successful
              && (f in q || f in Processor.Processes(rs) || (f == p.CreateProcessFromCommand(f.command) && f.command in commands))
  {
    var qs := q + Submitted(p, commands);
    var e := RunEnding(qs, rs, threads, events);
    if e.outcome.Fail? && e.outcome.error.ProcessFailed? {
      var f := e.outcome.error.process;
      assert !f.successful && (f in qs || f in Processor.Processes(rs)) by {
        RunEndingSpec(qs, rs, threads, events);
      }
      if f in qs && f !in q {
        assert f in Submitted(p, commands);
        SubmittedMembers(p, commands);
      }
    }
  }

  /** The schema phase ends with a run and records a prefix of its events
      (of the create-database run alone when the tables do not resolve or
      that run fails); when it passes it has recorded them all and left the
      processor idle. */
  lemma SchemaEndingLog(p: Processor.Processor, db: DbHelper.DbHelper, q: seq<Processor.Process>,
                        rs: seq<Processor.Started>, threads: int, tr: Result<seq<string>, string>)
    requires threads >= 1
    ensures var s := SchemaEnding(p, db, q, rs, threads, tr);
            && EndsWithRun(s.events)
            && s.events <= SchemaEvents(db, if tr.Success? then tr.value else [])
            && (tr.Failure? || CreateEnding(p, db, q, rs, threads).outcome.Fail? ==> s.events == SchemaEvents(db, []))
            && (s.outcome.Pass? ==>
                  tr.Success? && s.events == SchemaEvents(db, tr.value) && s.queued == [] && s.running == [])
  {
    var create := db.createDatabaseCommand;
    var ev0 := [Processor.Added(create), Processor.Ran];
    var tables := if tr.Success? then tr.value else [];
    RunEndingSpec(q + [p.CreateProcessFromCommand(create)], rs, threads, ev0);
    assert SchemaEvents(db, []) == ev0 + [];
    SchemaEventsPrefix(db, tables, 0);
    assert tables[..0] == [];
    PrefixAppend(ev0, [], SchemaTableEvents(db, tables));
    SchemaEventsShape(db, tables);
    if tr.Success? {
      SchemaTablesEndingSpec(p, db, tr.value);
      var t := SchemaTablesEnding(p, db, tr.value);
      PrefixAppend(ev0, t.events, SchemaTableEvents(db, tr.value));
      if t.outcome.Fail? {
        EndsWithRunAppend(ev0, t.events);
      }
    }
  }

  /** A process failure of the schema phase names a process that is not
      successful and was queued or running before, or is one of the
      phase's commands; a configuration error is that of the tables; the
      schema phase never meets an empty queue. */
  lemma SchemaEndingFailure(p: Processor.Processor, db: DbHelper.DbHelper, q: seq<Processor.Process>,
                            rs: seq<Processor.Started>, threads: int, tr: Result<seq<string>, string>)
    requires threads >= 1
    ensures var s := SchemaEnding(p, db, q, rs, threads, tr);
            && (s.outcome.Fail? && s.outcome.error.ProcessFailed? ==>
                  var f := s.outcome.error.process;
                  && !f.successful
                  && (f in q || f in Processor.Processes(rs)
                      || (f == p.CreateProcessFromCommand(f.command)
                          && f.command in [db.createDatabaseCommand] + (if tr.Success? then SchemaCommands(db, tr.value) else []))))
            && (s.outcome.Fail? && s.outcome.error.ConfigurationError? ==> tr == Failure(s.outcome.error.message))
            && s.outcome != Fail(QueueEmpty)
  {
    var pc := p.CreateProcessFromCommand(db.createDatabaseCommand);
    RunEndingSpec(q + [pc], rs, threads, [Processor.Added(db.createDatabaseCommand), Processor.Ran]);
    if tr.Success? {
      SchemaTablesEndingSpec(p, db, tr.value);
    }
  }

  /** From an idle processor the schema phase passes exactly when the
      tables resolve and every one of its commands succeeds. */
  lemma SchemaSucceedsIff(p: Processor.Processor, db: DbHelper.DbHelper, threads: int, tr: Result<seq<string>, string>)
    requires threads >= 1
    ensures SchemaEnding(p, db, [], [], threads, tr).outcome.Pass?
        <==> tr.Success? && AllSucceed(p, [db.createDatabaseCommand] + SchemaCommands(db, tr.value))
  {
    var pc := p.CreateProcessFromCommand(db.createDatabaseCommand);
    RunEndingSpec([pc], [], threads, [Processor.Added(db.createDatabaseCommand), Processor.Ran]);
    assert [] + [pc] == [pc];
    assert Processor.AllSuccessful([pc]) <==> AllSucceed(p, [db.createDatabaseCommand]);
    if tr.Success? {
      SchemaTablesEndingSpec(p, db, tr.value);
      AllSucceedAppend(p, [db.createDatabaseCommand], SchemaCommands(db, tr.value));
    }
  }

  /** The data phase: a configuration error records nothing and changes
      nothing; otherwise it records its events and runs, as QueuedRunSpec says. */
  lemma DataEndingSpec(p: Processor.Processor, db: DbHelper.DbHelper, q: seq<Processor.Process>,
                       rs: seq<Processor.Started>, threads: int, td: Result<seq<string>, string>, rowLimit: Option<int>)
    requires threads >= 1 && (td.Success? ==> PlanEnds(db, rowLimit, td.value))
    ensures var d := DataEnding(p, db, q, rs, threads, td, rowLimit);
            && (td.Failure? ==> d == Ending(Fail(ConfigurationError(td.error)), [], q, rs))
            && (td.Success? ==> d.events == DataPhaseEvents(db, td.value, rowLimit) && EndsWithRun(d.events))
            && (d.outcome.Pass? ==> td.Success? && d.queued == [] && d.running == [])
            && (d.outcome == Fail(QueueEmpty) ==> td.Success? && q == [] && DataCommands(db, td.value, rowLimit) == [])
            && (d.outcome.Fail? && d.outcome.error.ProcessFailed? ==>
                  var f := d.outcome.error.process;
                  && !f.successful
                  && (f in q || f in Processor.Processes(rs)
                      || (td.Success? && f == p.CreateProcessFromCommand(f.command) && f.command in DataCommands(db, td.value, rowLimit))))
            && (q == [] && rs == [] ==>
                  (d.outcome.Pass? <==>
                     td.Success? && DataCommands(db, td.value, rowLimit) != [] && AllSucceed(p, DataCommands(db, td.value, rowLimit))))
  {
    if td.Success? {
      QueuedRunSpec(p, q, rs, threads, DataCommands(db, td.value, rowLimit), DataPhaseEvents(db, td.value, rowLimit));
    }
  }

  /** Whenever the data and triggers phases pass, the data tables resolved,
      all their events were recorded and the processor is left idle. */
  lemma RestPassEnds(p: Processor.Processor, db: DbHelper.DbHelper, q: seq<Processor.Process>,
                     rs: seq<Processor.Started>, threads: int, tables: seq<string>,
                     td: Result<seq<string>, string>, rowLimit: Option<int>, copyTriggers: bool)
    requires threads >= 1 && (td.Success? ==> PlanEnds(db, rowLimit, td.value))
    ensures var e := RestEnding(p, db, q, rs, threads, tables, td, rowLimit, copyTriggers);
            e.outcome.Pass? ==>
              && td.Success? && e.events == RestEvents(db, tables, td.value, rowLimit, copyTriggers)
              && e.queued == [] && e.running == []
  {
    if td.Success? {
      var data := DataPhaseEvents(db, td.value, rowLimit);
      RunEndingIdle(q + Submitted(p, DataCommands(db, td.value, rowLimit)), rs, threads, data);
      var d := DataEnding(p, db, q, rs, threads, td, rowLimit);
      if d.outcome.Pass? && copyTriggers {
        RunEndingIdle(d.queued + Submitted(p, TriggerCommands(db, tables)), d.running, threads, TriggerPhaseEvents(db, tables));
      } else if !copyTriggers {
        assert data + [] == data;
      }
    }
  }

  /** A data phase that fails, or that is not followed by the triggers
      phase, ends the data and triggers phases as RestEnding says. */
  lemma RestDataOnly(p: Processor.Processor, db: DbHelper.DbHelper, q0: seq<Processor.Process>,
                     rs0: seq<Processor.Started>, threads: int, tables: seq<string>,
                     td: Result<seq<string>, string>, rowLimit: Option<int>, copyTriggers: bool,
                     q1: seq<Processor.Process>, rs1: seq<Processor.Started>, r1: Outcome<CopyError>,
                     log0: seq<Processor.Event>, log1: seq<Processor.Event>)
    requires threads >= 1 && (td.Success? ==> PlanEnds(db, rowLimit, td.value))
    requires td.Failure? ==> r1 == Fail(ConfigurationError(td.error)) && log1 == log0 && q1 == q0 && rs1 == rs0
    requires td.Success? ==>
               && log1 == log0 + Adds(DataCommands(db, td.value, rowLimit)) + [Processor.Ran]
               && RanQueue(q0 + Submitted(p, DataCommands(db, td.value, rowLimit)), rs0, threads, q1, rs1, r1)
    requires r1.Fail? || !copyTriggers
    ensures var e := RestEnding(p, db, q0, rs0, threads, tables, td, rowLimit, copyTriggers);
            r1 == e.outcome && log1 == log0 + e.events && q1 == e.queued && rs1 == e.running
  {
    if td.Success? {
      var cs := DataCommands(db, td.value, rowLimit);
      RanQueueEnding(q0 + Submitted(p, cs), rs0, threads, q1, rs1, r1, DataPhaseEvents(db, td.value, rowLimit));
      Regroup(log0, Adds(cs), [Processor.Ran], DataPhaseEvents(db, td.value, rowLimit));
    } else {
      assert log0 + [] == log0;
    }
  }

  /** A data phase that passes followed by the triggers phase ends the data
      and triggers phases as RestEnding says. */
  lemma RestBothPhases(p: Processor.Processor, db: DbHelper.DbHelper, q0: seq<Processor.Process>,
                       rs0: seq<Processor.Started>, threads: int, tables: seq<string>,
                       dataTables: seq<string>, rowLimit: Option<int>,
                       q1: seq<Processor.Process>, rs1: seq<Processor.Started>, r1: Outcome<CopyError>,
                       q2: seq<Processor.Process>, rs2: seq<Processor.Started>, r2: Outcome<CopyError>,
                       log0: seq<Processor.Event>, log1: seq<Processor.Event>, log2: seq<Processor.Event>)
    requires threads >= 1 && PlanEnds(db, rowLimit, dataTables)
    requires log1 == log0 + Adds(DataCommands(db, dataTables, rowLimit)) + [Processor.Ran]
    requires RanQueue(q0 + Submitted(p, DataCommands(db, dataTables, rowLimit)), rs0, threads, q1, rs1, r1)
    requires r1.Pass?
    requires log2 == log1 + Adds(TriggerCommands(db, tables)) + [Processor.Ran]
    requires RanQueue(q1 + Submitted(p, TriggerCommands(db, tables)), rs1, threads, q2, rs2, r2)
    ensures var e := RestEnding(p, db, q0, rs0, threads, tables, Success(dataTables), rowLimit, true);
            r2 == e.outcome && log2 == log0 + e.events && q2 == e.queued && rs2 == e.running
  {
    var cs := DataCommands(db, dataTables, rowLimit);
    var data := DataPhaseEvents(db, dataTables, rowLimit);
    var triggers := TriggerPhaseEvents(db, tables);
    RanQueueEnding(q0 + Submitted(p, cs), rs0, threads, q1, rs1, r1, data);
    RanQueueEnding(q1 + Submitted(p, TriggerCommands(db, tables)), rs1, threads, q2, rs2, r2, triggers);
    Regroup(log0, Adds(cs), [Processor.Ran], data);
    Regroup(log1, Adds(TriggerCommands(db, tables)), [Processor.Ran], triggers);
    Regroup(log0, data, triggers, data + triggers);
  }

  /** From an idle processor the data and triggers phases record nothing
      when the data tables do not resolve; otherwise they end with a run and
      record a prefix of their events, all of them when they pass, which
      leaves the processor idle. */
  lemma RestLog(p: Processor.Processor, db: DbHelper.DbHelper, threads: int, tables: seq<string>,
                td: Result<seq<string>, string>, rowLimit: Option<int>, copyTriggers: bool)
    requires threads >= 1 && (td.Success? ==> PlanEnds(db, rowLimit, td.value))
    ensures var rest := RestEnding(p, db, [], [], threads, tables, td, rowLimit, copyTriggers);
            && (td.Failure? ==> rest.events == [])
            && (td.Success? ==>
                  && EndsWithRun(rest.events)
                  && rest.events <= RestEvents(db, tables, td.value, rowLimit, copyTriggers))
            && (rest.outcome.Pass? ==>
                  && td.Success? && rest.events == RestEvents(db, tables, td.value, rowLimit, copyTriggers)
                  && rest.queued == [] && rest.running == [])
  {
    var d := DataEnding(p, db, [], [], threads, td, rowLimit);
    DataEndingSpec(p, db, [], [], threads, td, rowLimit);
    if td.Success? {
      var data := DataPhaseEvents(db, td.value, rowLimit);
      var triggers := if copyTriggers then TriggerPhaseEvents(db, tables) else [];
      if d.outcome.Fail? || !copyTriggers {
        PrefixExtend(data, data, triggers);
        if !copyTriggers {
          assert data + triggers == data;
        }
      } else {
        QueuedRunSpec(p, [], [], threads, TriggerCommands(db, tables), TriggerPhaseEvents(db, tables));
        EndsWithRunAppend(data, triggers);
      }
    }
  }

  /** A whole copy ends with a run, and what it records is a prefix of the
      events of a whole copy (of the schema phase when the data tables do
      not resolve, of the create-database run alone when the tables do not);
      when it passes it has recorded them all and left the processor idle. */
  lemma CopyAllLog(p: Processor.Processor, db: DbHelper.DbHelper, q: seq<Processor.Process>,
                   rs: seq<Processor.Started>, threads: int, tr: Result<seq<string>, string>,
                   td: Result<seq<string>, string>, rowLimit: Option<int>, copyTriggers: bool)
    requires threads >= 1 && (td.Success? ==> PlanEnds(db, rowLimit, td.value))
    ensures var e := CopyAllEnding(p, db, q, rs, threads, tr, td, rowLimit, copyTriggers);
            && EndsWithRun(e.events)
            && (tr.Failure? ==> e.events == SchemaEvents(db, []))
            && (tr.Success? && td.Failure? ==> e.events <= SchemaEvents(db, tr.value))
            && (tr.Success? && td.Success? ==> e.events <= CopyAllEvents(db, tr.value, td.value, rowLimit, copyTriggers))
            && (e.outcome.Pass? ==>
                  && tr.Success? && td.Success?
                  && e.events == CopyAllEvents(db, tr.value, td.value, rowLimit, copyTriggers)
                  && e.queued == [] && e.running == [])
  {
    var s := SchemaEnding(p, db, q, rs, threads, tr);
    SchemaEndingLog(p, db, q, rs, threads, tr);
    if tr.Success? && td.Success? {
      PrefixExtend(s.events, SchemaEvents(db, tr.value), RestEvents(db, tr.value, td.value, rowLimit, copyTriggers));
    }
    if s.outcome.Pass? {
      var rest := RestEnding(p, db, [], [], threads, tr.value, td, rowLimit, copyTriggers);
      RestLog(p, db, threads, tr.value, td, rowLimit, copyTriggers);
      assert CopyAllEnding(p, db, q, rs, threads, tr, td, rowLimit, copyTriggers) == Then(s, rest);
      if td.Failure? {
        assert s.events + rest.events == s.events;
      } else {
        PrefixAppend(s.events, rest.events, RestEvents(db, tr.value, td.value, rowLimit, copyTriggers));
        EndsWithRunAppend(s.events, rest.events);
      }
    }
  }

  /** From an idle processor a process failure of the data and triggers
      phases names an unsuccessful process of one of their commands; a
      configuration error is that of the data tables; an empty queue is that
      of a data phase without commands or of a triggers phase without tables. */
  lemma RestFailure(p: Processor.Processor, db: DbHelper.DbHelper, threads: int, tables: seq<string>,
                    td: Result<seq<string>, string>, rowLimit: Option<int>, copyTriggers: bool)
    requires threads >= 1 && (td.Success? ==> PlanEnds(db, rowLimit, td.value))
    ensures var rest := RestEnding(p, db, [], [], threads, tables, td, rowLimit, copyTriggers);
            && (rest.outcome.Fail? && rest.outcome.error.ProcessFailed? ==>
                  var f := rest.outcome.error.process;
                  && td.Success? && !f.successful && f == p.CreateProcessFromCommand(f.command)
                  && (f.command in DataCommands(db, td.value, rowLimit)
                      || (copyTriggers && f.command in TriggerCommands(db, tables))))
            && (rest.outcome.Fail? && rest.outcome.error.ConfigurationError? ==> td == Failure(rest.outcome.error.message))
            && (rest.outcome == Fail(QueueEmpty) ==>
                  td.Success? && (DataCommands(db, td.value, rowLimit) == [] || (copyTriggers && tables == [])))
  {
    var d := DataEnding(p, db, [], [], threads, td, rowLimit);
    DataEndingSpec(p, db, [], [], threads, td, rowLimit);
    if d.outcome.Pass? && copyTriggers {
      QueuedRunSpec(p, [], [], threads, TriggerCommands(db, tables), TriggerPhaseEvents(db, tables));
    }
  }

  /** A process failure of a whole copy names a process that is not
      successful and was queued or running before, or is one of the
      commands the copy hands to the processor; a configuration error is
      that of the tables or, once they resolve, of the data tables; an
      empty queue is that of a data phase without commands or of a
      triggers phase without tables. */
  lemma CopyAllFailure(p: Processor.Processor, db: DbHelper.DbHelper, q: seq<Processor.Process>,
                       rs: seq<Processor.Started>, threads: int, tr: Result<seq<string>, string>,
                       td: Result<seq<string>, string>, rowLimit: Option<int>, copyTriggers: bool)
    requires threads >= 1 && (td.Success? ==> PlanEnds(db, rowLimit, td.value))
    ensures var e := CopyAllEnding(p, db, q, rs, threads, tr, td, rowLimit, copyTriggers);
            && (e.outcome.Fail? && e.outcome.error.ProcessFailed? ==>
                  var f := e.outcome.error.process;
                  && !f.successful
                  && (f in q || f in Processor.Processes(rs)
                      || (f == p.CreateProcessFromCommand(f.command)
                          && f.command in CopyAllCommands(db, tr, td, rowLimit, copyTriggers))))
            && (e.outcome.Fail? && e.outcome.error.ConfigurationError? ==>
                  tr == Failure(e.outcome.error.message) || (tr.Success? && td == Failure(e.outcome.error.message)))
            && (e.outcome == Fail(QueueEmpty) ==>
                  tr.Success? && td.Success? && (DataCommands(db, td.value, rowLimit) == [] || (copyTriggers && tr.value == [])))
  {
    var s := SchemaEnding(p, db, q, rs, threads, tr);
    SchemaEndingFailure(p, db, q, rs, threads, tr);
    SchemaEndingLog(p, db, q, rs, threads, tr);
    if s.outcome.Pass? {
      var rest := RestEnding(p, db, [], [], threads, tr.value, td, rowLimit, copyTriggers);
      RestFailure(p, db, threads, tr.value, td, rowLimit, copyTriggers);
      assert CopyAllEnding(p, db, q, rs, threads, tr, td, rowLimit, copyTriggers).outcome == rest.outcome;
    }
  }

  /** From an idle processor the data and triggers phases pass exactly
      when the data tables resolve, the data phase has commands that all
      succeed, and, when triggers are copied, there are tables and all their
      triggers commands succeed. */
  lemma RestSucceedsIff(p: Processor.Processor, db: DbHelper.DbHelper, threads: int, tables: seq<string>,
                        td: Result<seq<string>, string>, rowLimit: Option<int>, copyTriggers: bool)
    requires threads >= 1 && (td.Success? ==> PlanEnds(db, rowLimit, td.value))
    ensures RestEnding(p, db, [], [], threads, tables, td, rowLimit, copyTriggers).outcome.Pass?
        <==> && td.Success? && DataCommands(db, td.value, rowLimit) != [] && AllSucceed(p, DataCommands(db, td.value, rowLimit))
             && (copyTriggers ==> tables != [] && AllSucceed(p, TriggerCommands(db, tables)))
  {
    DataEndingSpec(p, db, [], [], threads, td, rowLimit);
    var d := DataEnding(p, db, [], [], threads, td, rowLimit);
    if d.outcome.Pass? && copyTriggers {
      QueuedRunSpec(p, [], [], threads, TriggerCommands(db, tables), TriggerPhaseEvents(db, tables));
    }
  }

  /** From an idle processor a whole copy passes exactly when both table
      lists resolve, the data phase has commands, and every command the
      copy hands to the processor succeeds. */
  lemma CopyAllSucceedsIff(p: Processor.Processor, db: DbHelper.DbHelper, threads: int, tr: Result<seq<string>, string>,
                           td: Result<seq<string>, string>, rowLimit: Option<int>, copyTriggers: bool)
    requires threads >= 1 && (td.Success? ==> PlanEnds(db, rowLimit, td.value))
    requires tr.Success? ==> tr.value != []
    ensures CopyAllEnding(p, db, [], [], threads, tr, td, rowLimit, copyTriggers).outcome.Pass?
        <==> && tr.Success? && td.Success? && DataCommands(db, td.value, rowLimit) != []
             && AllSucceed(p, CopyAllCommands(db, tr, td, rowLimit, copyTriggers))
  {
    SchemaSucceedsIff(p, db, threads, tr);
    SchemaEndingLog(p, db, [], [], threads, tr);
    if tr.Success? {
      CopyAllCommandsSucceed(p, db, tr.value, td, rowLimit, copyTriggers);
      RestSucceedsIff(p, db, threads, tr.value, td, rowLimit, copyTriggers);
    } else {
      assert CopyAllCommands(db, tr, td, rowLimit, copyTriggers) == [db.createDatabaseCommand];
    }
  }

  /** Whatever was queued or running before, a whole copy passes when all
      of it is successful, both table lists resolve, the data phase has
      commands and every command the copy hands to the processor succeeds. */
  lemma CopyAllSucceeds(p: Processor.Processor, db: DbHelper.DbHelper, q: seq<Processor.Process>,
                        rs: seq<Processor.Started>, threads: int, tr: Result<seq<string>, string>,
                        td: Result<seq<string>, string>, rowLimit: Option<int>, copyTriggers: bool)
    requires threads >= 1 && (td.Success? ==> PlanEnds(db, rowLimit, td.value))
    requires Processor.AllSuccessful(q) && Processor.AllSuccessful(Processor.Processes(rs))
    requires tr.Success? && tr.value != [] && td.Success? && DataCommands(db, td.value, rowLimit) != []
    requires AllSucceed(p, CopyAllCommands(db, tr, td, rowLimit, copyTriggers))
    ensures CopyAllEnding(p, db, q, rs, threads, tr, td, rowLimit, copyTriggers).outcome.Pass?
  {
    var create := db.createDatabaseCommand;
    var pc := p.CreateProcessFromCommand(create);
    assert create in CopyAllCommands(db, tr, td, rowLimit, copyTriggers);
    RunEndingSpec(q + [pc], rs, threads, [Processor.Added(create), Processor.Ran]);
    CopyAllCommandsSucceed(p, db, tr.value, td, rowLimit, copyTriggers);
    AllSucceedAppend(p, [create], SchemaCommands(db, tr.value));
    SchemaTablesEndingSpec(p, db, tr.value);
    RestSucceedsIff(p, db, threads, tr.value, td, rowLimit, copyTriggers);
  }

  /** The commands of a whole copy succeed exactly when those of each phase do. */
  lemma CopyAllCommandsSucceed(p: Processor.Processor, db: DbHelper.DbHelper, tables: seq<string>,
                               td: Result<seq<string>, string>, rowLimit: Option<int>, copyTriggers: bool)
    requires td.Success? ==> PlanEnds(db, rowLimit, td.value)
    ensures AllSucceed(p, CopyAllCommands(db, Success(tables), td, rowLimit, copyTriggers))
        <==> && AllSucceed(p, [db.createDatabaseCommand] + SchemaCommands(db, tables))
             && (td.Success? ==> AllSucceed(p, DataCommands(db, td.value, rowLimit)))
             && (copyTriggers ==> AllSucceed(p, TriggerCommands(db, tables)))
  {
    var schema := [db.createDatabaseCommand] + SchemaCommands(db, tables);
    var data := if td.Success? then DataCommands(db, td.value, rowLimit) else [];
    var triggers := if copyTriggers then TriggerCommands(db, tables) else [];
    assert CopyAllCommands(db, Success(tables), td, rowLimit, copyTriggers) == schema + data + triggers;
    AllSucceedAppend(p, schema + data, triggers);
    AllSucceedAppend(p, schema, data);
  }

  // ---------------------------------------------------------------------
  // The copier object
  // ---------------------------------------------------------------------

  class Copier {
    const processor: Processor.Processor
    const db: DbHelper.DbHelper
    var rowLimit: Option<int>
    var copyTriggers: bool
    /** The memo of getAllTables; empty means not yet resolved. */
    var allTables: seq<string>
    /** The memo of getAllTablesWithData; empty means not yet resolved. */
    var allTablesWithData: seq<string>
    var includeTables: seq<string>
    var excludeTables: seq<string>
    var includeDataFor: seq<string>
    var excludeDataFor: seq<string>

    /** At most one list of each include / exclude pair is non-empty. */
    ghost predicate FiltersExclusive()
      reads this
    {
      && (includeTables == [] || excludeTables == [])
      && (includeDataFor == [] || excludeDataFor == [])
    }

    /** What getAllTables resolves to in the current state. */
    ghost function TablesPlan(): Result<seq<string>, string>
      reads this
    {
      ResolveTables(allTables, db.tables, includeTables, excludeTables)
    }

    /** What getAllTablesWithData resolves to in the current state. */
    ghost function DataPlan(): Result<seq<string>, string>
      reads this
    {
      ResolveData(allTablesWithData, TablesPlan(), includeDataFor, excludeDataFor)
    }

    constructor (processor: Processor.Processor, db: DbHelper.DbHelper)
      ensures this.processor == processor && this.db == db
      ensures rowLimit == None && copyTriggers
      ensures allTables == [] && allTablesWithData == []
      ensures includeTables == [] && excludeTables == [] && includeDataFor == [] && excludeDataFor == []
      ensures FiltersExclusive()
    {
      this.processor := processor;
      this.db := db;
      rowLimit := None;
      copyTriggers := true;
      allTables := [];
      allTablesWithData := [];
      includeTables := [];
      excludeTables := [];
      includeDataFor := [];
      excludeDataFor := [];
    }

    method SetRowLimit(rowLimit: int)
      modifies this`rowLimit
      ensures this.rowLimit == Some(rowLimit)
    {
      this.rowLimit := Some(rowLimit);
    }

    method SetCopyTriggers(copyTriggers: bool)
      modifies this`copyTriggers
      ensures this.copyTriggers == copyTriggers
    {
      this.copyTriggers := copyTriggers;
    }

    /** Refused while tables are included; otherwise replaces the exclude list only. */
    method ExcludeTables(tables: seq<string>) returns (r: Outcome<CopyError>)
      modifies this`excludeTables
      ensures old(includeTables) != [] ==> r == Fail(ConfigurationError(ExcludeWhileInclude)) && excludeTables == old(excludeTables)
      ensures old(includeTables) == [] ==> r == Pass && excludeTables == tables
      ensures old(FiltersExclusive()) ==> FiltersExclusive()
    {
      if includeTables != [] {
        return Fail(ConfigurationError(ExcludeWhileInclude));
      }
      excludeTables := tables;
      return Pass;
    }

    /** Refused while tables are excluded; otherwise replaces the include list only. */
    method IncludeTables(tables: seq<string>) returns (r: Outcome<CopyError>)
      modifies this`includeTables
      ensures old(excludeTables) != [] ==> r == Fail(ConfigurationError(IncludeWhileExclude)) && includeTables == old(includeTables)
      ensures old(excludeTables) == [] ==> r == Pass && includeTables == tables
      ensures old(FiltersExclusive()) ==> FiltersExclusive()
    {
      if excludeTables != [] {
        return Fail(ConfigurationError(IncludeWhileExclude));
      }
      includeTables := tables;
      return Pass;
    }

    /** Refused while data is included; otherwise replaces the exclude-data list only. */
    method ExcludeDataFor(tables: seq<string>) returns (r: Outcome<CopyError>)
      modifies this`excludeDataFor
      ensures old(includeDataFor) != [] ==> r == Fail(ConfigurationError(ExcludeDataWhileIncludeData)) && excludeDataFor == old(excludeDataFor)
      ensures old(includeDataFor) == [] ==> r == Pass && excludeDataFor == tables
      ensures old(FiltersExclusive()) ==> FiltersExclusive()
    {
      if includeDataFor != [] {
        return Fail(ConfigurationError(ExcludeDataWhileIncludeData));
      }
      excludeDataFor := tables;
      return Pass;
    }

    /** Refused while data is excluded; otherwise replaces the include-data list only. */
    method IncludeDataFor(tables: seq<string>) returns (r: Outcome<CopyError>)
      modifies this`includeDataFor
      ensures old(excludeDataFor) != [] ==> r == Fail(ConfigurationError(IncludeDataWhileExcludeData)) && includeDataFor == old(includeDataFor)
      ensures old(excludeDataFor) == [] ==> r == Pass && includeDataFor == tables
      ensures old(FiltersExclusive()) ==> FiltersExclusive()
    {
      if excludeDataFor != [] {
        return Fail(ConfigurationError(IncludeDataWhileExcludeData));
      }
      includeDataFor := tables;
      return Pass;
    }

    /** The tables to copy; a successful resolution is memoised. */
    method GetAllTables() returns (r: Result<seq<string>, string>)
      modifies this`allTables
      ensures r == old(TablesPlan())
      ensures allTables == (if r.Success? then r.value else old(allTables))
    {
      if allTables != [] {
        return Success(allTables);
      }
      var listing := db.tables;
      if includeTables != [] {
        var i := FindMissing(includeTables, listing);
        if i < |includeTables| {
          return Failure(IncludedTableMissing(includeTables[i]));
        }
        allTables := includeTables;
        return Success(allTables);
      }
      if excludeTables != [] {
        var i := FindMissing(excludeTables, listing);
        if i < |excludeTables| {
          return Failure(ExcludedTableMissing(excludeTables[i]));
        }
        listing := Without(listing, excludeTables);
      }
      if listing == [] {
        return Failure(TablesListEmpty);
      }
      allTables := listing;
      return Success(allTables);
    }

    method SetAllTables(tables: seq<string>)
      modifies this`allTables
      ensures allTables == tables
    {
      allTables := tables;
    }

    /** The tables to copy with data; a non-empty result is memoised. */
    method GetAllTablesWithData() returns (r: Result<seq<string>, string>)
      modifies this`allTables, this`allTablesWithData
      ensures r == old(DataPlan())
      ensures var tr := old(TablesPlan());
              allTables == (if old(allTablesWithData) == [] && tr.Success? then tr.value else old(allTables))
      ensures allTablesWithData == (if r.Success? then r.value else old(allTablesWithData))
    {
      if allTablesWithData != [] {
        return Success(allTablesWithData);
      }
      var resolved := GetAllTables();
      if resolved.Failure? {
        return resolved;
      }
      var tables := resolved.value;
      if includeDataFor != [] {
        var i := FindMissing(includeDataFor, tables);
        if i < |includeDataFor| {
          return Failure(IncludedDataMissing(includeDataFor[i]));
        }
        allTablesWithData := includeDataFor;
        return Success(allTablesWithData);
      }
      if excludeDataFor != [] {
        var i := FindMissing(excludeDataFor, tables);
        if i < |excludeDataFor| {
          return Failure(ExcludedDataMissing(excludeDataFor[i]));
        }
        tables := Without(tables, excludeDataFor);
      }
      allTablesWithData := tables;
      return Success(allTablesWithData);
    }

    method SetAllTablesWithData(tables: seq<string>)
      modifies this`allTablesWithData
      ensures allTablesWithData == tables
    {
      allTablesWithData := tables;
    }

    /** Queue one command and run the processor at once, as the schema
        phase does with each of its commands. */
    method RunAlone(command: string) returns (run: Processor.RunResult)
      requires processor.threads >= 1
      modifies processor`queued, processor`running, processor`log
      ensures processor.log == old(processor.log) + [Processor.Added(command), Processor.Ran]
      ensures RanQueue(old(processor.queued) + [processor.CreateProcessFromCommand(command)], old(processor.running),
                       processor.threads, processor.queued, processor.running, FromRun(run))
      ensures run.Completed? || run.ProcessFailed?
      ensures run.Completed? ==> processor.queued == [] && processor.running == []
      // on an idle processor the command runs alone: it completes exactly when it is successful
      ensures old(processor.queued) == [] && old(processor.running) == [] ==>
                var p := processor.CreateProcessFromCommand(command);
                && run == (if p.successful then Processor.Completed([p]) else Processor.ProcessFailed(p))
                && processor.queued == []
                && processor.running == (if p.successful then [] else [Processor.Started(p, 0)])
    {
      ghost var idle := processor.queued == [] && processor.running == [];
      processor.AddCommand(command);
      run := processor.Run();
      if idle {
        ghost var p := processor.CreateProcessFromCommand(command);
        assert old(processor.queued) + [p] == [p];
        Processor.LoneJob(p, processor.threads);
      }
    }

    /** The table loop of the schema phase: each table's schema command in a run of its own. */
    method CopyTableSchemas(tables: seq<string>) returns (r: Outcome<CopyError>)
      requires processor.threads >= 1
      requires processor.queued == [] && processor.running == []
      modifies processor`queued, processor`running, processor`log
      ensures r.Pass? ==>
                && processor.log == old(processor.log) + SchemaTableEvents(db, tables)
                && processor.queued == [] && processor.running == []
      ensures r.Fail? ==> r.error.ProcessFailed?
      ensures processor.log <= old(processor.log) + SchemaTableEvents(db, tables)
      ensures var e := SchemaTablesEnding(processor, db, tables);
              && r == e.outcome
              && processor.log == old(processor.log) + e.events
              && processor.queued == e.queued && processor.running == e.running
    {
      ghost var cs := SchemaCommands(db, tables);
      var i := 0;
      assert tables[..0] == [];
      while i < |tables|
        invariant i <= FirstFailing(processor, cs)
        invariant processor.log == old(processor.log) + SchemaTableEvents(db, tables[..i])
        invariant processor.queued == [] && processor.running == []
      {
        ghost var step := [Processor.Added(db.copySchemaCommand(tables[i])), Processor.Ran];
        var run := RunAlone(db.copySchemaCommand(tables[i]));
        assert processor.log == old(processor.log) + SchemaTableEvents(db, tables[..i + 1]) by {
          SchemaEventsSnoc(db, tables, i);
          Regroup(old(processor.log), SchemaTableEvents(db, tables[..i]), step, SchemaTableEvents(db, tables[..i + 1]));
        }
        if run.ProcessFailed? {
          SchemaTablesFailAt(processor, db, tables, i);
          assert processor.log <= old(processor.log) + SchemaTableEvents(db, tables) by {
            SchemaEventsPrefix(db, tables, i + 1);
            PrefixAppend(old(processor.log), SchemaTableEvents(db, tables[..i + 1]), SchemaTableEvents(db, tables));
          }
          return Fail(ProcessFailed(run.process));
        }
        SchemaTablesPassOn(processor, db, tables, i);
        i := i + 1;
      }
      assert tables[..i] == tables;
      return Pass;
    }

    /** The schema phase: create the write database, then copy each table's
        schema, each command in a run of its own. */
    method CopySchema() returns (r: Outcome<CopyError>)
      requires processor.threads >= 1
      modifies this`allTables, processor`queued, processor`running, processor`log
      ensures var tr := old(TablesPlan());
              && (r.Pass? ==>
                    && tr.Success? && allTables == tr.value
                    && processor.log == old(processor.log) + SchemaEvents(db, tr.value)
                    && processor.queued == [] && processor.running == [])
              && (tr.Failure? ==> r.Fail?)
              && (r.Fail? && r.error.ConfigurationError? ==>
                    && tr == Failure(r.error.message)
                    && processor.log == old(processor.log) + SchemaEvents(db, []))
              && r != Fail(QueueEmpty)
              && processor.log <= old(processor.log) + SchemaEvents(db, if tr.Success? then tr.value else [])
      ensures var e := SchemaEnding(processor, db, old(processor.queued), old(processor.running), processor.threads, old(TablesPlan()));
              && r == e.outcome
              && processor.log == old(processor.log) + e.events
              && processor.queued == e.queued && processor.running == e.running
      ensures allTables == (if CreateEnding(processor, db, old(processor.queued), old(processor.running), processor.threads).outcome.Pass?
                               && old(TablesPlan()).Success?
                            then old(TablesPlan()).value else old(allTables))
    {
      ghost var tr := TablesPlan();
      ghost var create := [Processor.Added(db.createDatabaseCommand), Processor.Ran];
      ghost var tables := if tr.Success? then tr.value else [];
      assert SchemaTableEvents(db, []) == [];
      assert create + [] == create;
      assert SchemaEvents(db, []) <= SchemaEvents(db, tables);
      var run := RunAlone(db.createDatabaseCommand);
      RanQueueEnding(old(processor.queued) + [processor.CreateProcessFromCommand(db.createDatabaseCommand)],
                     old(processor.running), processor.threads, processor.queued, processor.running, FromRun(run), create);
      if run.ProcessFailed? {
        return Fail(ProcessFailed(run.process));
      }
      var resolved := GetAllTables();
      if resolved.Failure? {
        return Fail(ConfigurationError(resolved.error));
      }
      ghost var createLog := processor.log;
      r := CopyTableSchemas(resolved.value);
      Regroup(old(processor.log), create, SchemaTableEvents(db, tables), SchemaEvents(db, tables));
      Regroup(old(processor.log), create, SchemaTablesEnding(processor, db, tables).events,
              create + SchemaTablesEnding(processor, db, tables).events);
    }

    /** The chunk loop of the data phase: queue one chunk command per
        `limit` rows, at offsets 0, limit, 2 limit, ... below `rows`. */
    method QueueChunks(table: string, limit: int, rows: nat)
      requires limit > 0 || rows == 0
      modifies processor`queued, processor`log
      ensures var cs := ChunkCommandsFrom(db, table, limit, 0, rows);
              && processor.log == old(processor.log) + Adds(cs)
              && processor.queued == old(processor.queued) + Submitted(processor, cs)
    {
      ghost var done: seq<string> := [];
      var offset := 0;
      ChunksStart(db, table, limit, rows);
      while offset < rows
        invariant ChunksQueued(db, table, limit, rows, offset, done)
        invariant processor.log == old(processor.log) + Adds(done)
        invariant processor.queued == old(processor.queued) + Submitted(processor, done)
        decreases rows - offset
      {
        var command := db.copyChunkedDataCommand(table, limit, offset);
        ghost var log0, queued0 := processor.log, processor.queued;
        processor.AddCommand(command);
        LogStep(old(processor.log), done, command, log0, processor.log);
        QueueStep(processor, old(processor.queued), done, command, queued0, processor.queued);
        ChunksStep(db, table, limit, rows, offset, done);
        done := done + [command];
        offset := offset + limit;
      }
      ChunksDone(db, table, limit, rows, offset, done);
    }

    /** One table of the data phase: chunks when a row limit is set and the
        table has more rows than it, else one full copy command. */
    method QueueTableData(table: string)
      requires ChunkingEnds(rowLimit, db.rowCount(table))
      modifies processor`queued, processor`log
      ensures processor.log == old(processor.log) + Adds(TableDataCommands(db, table, rowLimit))
      ensures processor.queued == old(processor.queued) + Submitted(processor, TableDataCommands(db, table, rowLimit))
    {
      var rowCount := db.rowCount(table);
      if rowLimit.Some? && rowCount > rowLimit.value {
        QueueChunks(table, rowLimit.value, rowCount);
      } else {
        var command := db.copyDataCommand(table);
        processor.AddCommand(command);
        AddsOne(command);
        SubmittedOne(processor, command);
      }
    }

    /** The table loop of the data phase: queue each table's data commands, in order. */
    method QueueData(tables: seq<string>)
      requires PlanEnds(db, rowLimit, tables)
      modifies processor`queued, processor`log
      ensures processor.log == old(processor.log) + Adds(DataCommands(db, tables, rowLimit))
      ensures processor.queued == old(processor.queued) + Submitted(processor, DataCommands(db, tables, rowLimit))
    {
      var i := 0;
      assert tables[..0] == [];
      PlanEndsPrefix(db, rowLimit, tables, 0);
      while i < |tables|
        invariant 0 <= i <= |tables|
        invariant PlanEnds(db, rowLimit, tables[..i])
        invariant processor.log == old(processor.log) + Adds(DataCommands(db, tables[..i], rowLimit))
        invariant processor.queued == old(processor.queued) + Submitted(processor, DataCommands(db, tables[..i], rowLimit))
      {
        ghost var log0, queued0 := processor.log, processor.queued;
        QueueTableData(tables[i]);
        QueueDataStep(processor, db, tables, i, rowLimit, old(processor.log), log0, processor.log);
        QueuedDataStep(processor, db, tables, i, rowLimit, old(processor.queued), queued0, processor.queued);
        i := i + 1;
      }
      assert tables[..i] == tables;
    }

    /** The data phase: queue the data commands of every table with data,
        in order, then run the processor once. */
    method CopyData() returns (r: Outcome<CopyError>)
      requires var td := DataPlan();
               td.Success? ==>
                 && PlanEnds(db, rowLimit, td.value)
                 && (processor.queued != [] || DataCommands(db, td.value, rowLimit) != [] ==> processor.threads >= 1)
      modifies this`allTables, this`allTablesWithData, processor`queued, processor`running, processor`log
      ensures var tr := old(TablesPlan());
              allTables == (if old(allTablesWithData) == [] && tr.Success? then tr.value else old(allTables))
      ensures var td := old(DataPlan());
              allTablesWithData == (if td.Success? then td.value else old(allTablesWithData))
      ensures var td := old(DataPlan());
              td.Failure? ==>
                && r == Fail(ConfigurationError(td.error))
                && processor.log == old(processor.log)
                && processor.queued == old(processor.queued) && processor.running == old(processor.running)
      ensures var td := old(DataPlan());
              td.Success? ==>
                var commands := DataCommands(db, td.value, rowLimit);
                var q := old(processor.queued) + Submitted(processor, commands);
                && processor.log == old(processor.log) + Adds(commands) + [Processor.Ran]
                && RanQueue(q, old(processor.running), processor.threads, processor.queued, processor.running, r)
      // a data phase that succeeds leaves the processor idle
      ensures r.Pass? ==> processor.queued == [] && processor.running == []
    {
      var resolved := GetAllTablesWithData();
      if resolved.Failure? {
        return Fail(ConfigurationError(resolved.error));
      }
      QueueData(resolved.value);
      var run := processor.Run();
      r := FromRun(run);
    }

    /** The table loop of the triggers phase: queue each table's triggers command, in order. */
    method QueueTriggers(tables: seq<string>)
      modifies processor`queued, processor`log
      ensures processor.log == old(processor.log) + Adds(TriggerCommands(db, tables))
      ensures processor.queued == old(processor.queued) + Submitted(processor, TriggerCommands(db, tables))
    {
      var i := 0;
      assert tables[..0] == [];
      while i < |tables|
        invariant 0 <= i <= |tables|
        invariant processor.log == old(processor.log) + Adds(TriggerCommands(db, tables[..i]))
        invariant processor.queued == old(processor.queued) + Submitted(processor, TriggerCommands(db, tables[..i]))
      {
        ghost var log0, queued0 := processor.log, processor.queued;
        processor.AddCommand(db.copyTriggersCommand(tables[i]));
        TriggerStep(processor, db, tables, i, old(processor.log), log0, processor.log, old(processor.queued), queued0, processor.queued);
        i := i + 1;
      }
      assert tables[..i] == tables;
    }

    /** The triggers phase: queue each table's triggers command, in order,
        then run the processor once. */
    method CopyTriggers() returns (r: Outcome<CopyError>)
      requires TablesPlan().Success? ==> processor.threads >= 1
      modifies this`allTables, processor`queued, processor`running, processor`log
      ensures var tr := old(TablesPlan());
              allTables == (if tr.Success? then tr.value else old(allTables))
      ensures var tr := old(TablesPlan());
              tr.Failure? ==>
                && r == Fail(ConfigurationError(tr.error))
                && processor.log == old(processor.log)
                && processor.queued == old(processor.queued) && processor.running == old(processor.running)
      ensures var tr := old(TablesPlan());
              tr.Success? ==>
                var commands := TriggerCommands(db, tr.value);
                && processor.log == old(processor.log) + Adds(commands) + [Processor.Ran]
                && RanQueue(old(processor.queued) + Submitted(processor, commands), old(processor.running),
                            processor.threads, processor.queued, processor.running, r)
      // a triggers phase that succeeds leaves the processor idle
      ensures r.Pass? ==> processor.queued == [] && processor.running == []
    {
      var resolved := GetAllTables();
      if resolved.Failure? {
        return Fail(ConfigurationError(resolved.error));
      }
      QueueTriggers(resolved.value);
      var run := processor.Run();
      r := FromRun(run);
    }

    /** The data and triggers phases of copyAll, once the tables are resolved. */
    method CopyRest() returns (r: Outcome<CopyError>)
      requires processor.threads >= 1
      requires allTables != []
      requires var td := DataPlan(); td.Success? ==> PlanEnds(db, rowLimit, td.value)
      modifies this`allTables, this`allTablesWithData, processor`queued, processor`running, processor`log
      ensures var td := old(DataPlan());
              r.Pass? ==>
                && td.Success?
                && processor.log == old(processor.log) + RestEvents(db, old(allTables), td.value, rowLimit, copyTriggers)
                && processor.queued == [] && processor.running == []
      ensures var e := RestEnding(processor, db, old(processor.queued), old(processor.running), processor.threads,
                                  old(allTables), old(DataPlan()), rowLimit, copyTriggers);
              && r == e.outcome
              && processor.log == old(processor.log) + e.events
              && processor.queued == e.queued && processor.running == e.running
      // the resolved tables are kept; the tables with data are stored once they resolve
      ensures allTables == old(allTables)
      ensures allTablesWithData == (if old(DataPlan()).Success? then old(DataPlan()).value else old(allTablesWithData))
    {
      ghost var tables := allTables;
      ghost var td := DataPlan();
      ghost var q0, rs0, log0 := processor.queued, processor.running, processor.log;
      RestPassEnds(processor, db, q0, rs0, processor.threads, tables, td, rowLimit, copyTriggers);
      r := CopyData();
      if r.Fail? || !copyTriggers {
        RestDataOnly(processor, db, q0, rs0, processor.threads, tables, td, rowLimit, copyTriggers,
                     processor.queued, processor.running, r, log0, processor.log);
        return;
      }
      ghost var r1, q1, rs1, log1 := r, processor.queued, processor.running, processor.log;
      assert allTables == tables;
      r := CopyTriggers();
      RestBothPhases(processor, db, q0, rs0, processor.threads, tables, td.value, rowLimit,
                     q1, rs1, r1, processor.queued, processor.running, r, log0, log1, processor.log);
    }

    /** Copy everything: schema, then data, then triggers when enabled;
        the first phase to fail stops the copy. */
    method CopyAll() returns (r: Outcome<CopyError>)
      requires processor.threads >= 1
      requires var td := DataPlan(); td.Success? ==> PlanEnds(db, rowLimit, td.value)
      modifies this`allTables, this`allTablesWithData, processor`queued, processor`running, processor`log
      ensures var tr := old(TablesPlan());
              var td := old(DataPlan());
              r.Pass? ==>
                && tr.Success? && td.Success?
                && processor.log == old(processor.log) + CopyAllEvents(db, tr.value, td.value, rowLimit, copyTriggers)
                && processor.queued == [] && processor.running == []
      ensures old(TablesPlan()).Failure? ==> r.Fail?
      ensures var e := CopyAllEnding(processor, db, old(processor.queued), old(processor.running), processor.threads,
                                     old(TablesPlan()), old(DataPlan()), rowLimit, copyTriggers);
              && r == e.outcome
              && processor.log == old(processor.log) + e.events
              && processor.queued == e.queued && processor.running == e.running
      // the tables are stored once the create-database run passes and they resolve, the
      // tables with data once the schema phase passes and they resolve
      ensures allTables == (if CreateEnding(processor, db, old(processor.queued), old(processor.running), processor.threads).outcome.Pass?
                               && old(TablesPlan()).Success?
                            then old(TablesPlan()).value else old(allTables))
      ensures allTablesWithData == (if SchemaEnding(processor, db, old(processor.queued), old(processor.running), processor.threads,
                                                    old(TablesPlan())).outcome.Pass?
                                       && old(DataPlan()).Success?
                                    then old(DataPlan()).value else old(allTablesWithData))
    {
      ghost var tr := TablesPlan();
      ghost var td := DataPlan();
      r := CopySchema();
      if r.Fail? {
        return;
      }
      assert DataPlan() == td;
      ghost var schemaLog := processor.log;
      ghost var s := SchemaEnding(processor, db, old(processor.queued), old(processor.running), processor.threads, tr);
      r := CopyRest();
      ghost var rest := RestEnding(processor, db, s.queued, s.running, processor.threads, tr.value, td, rowLimit, copyTriggers);
      Regroup(old(processor.log), s.events, rest.events, s.events + rest.events);
      if r.Pass? {
        Regroup(old(processor.log), SchemaEvents(db, tr.value), RestEvents(db, tr.value, td.value, rowLimit, copyTriggers),
                CopyAllEvents(db, tr.value, td.value, rowLimit, copyTriggers));
      }
    }
  }
}
