/**
 * What a benchmark run does, as pure functions.  Given the backend's
 * answers (an `Oracle`), each function says which repository calls a part
 * of the run makes, which metric names it records and which error texts
 * it appends.  The imperative methods in module Usecase are proved to
 * behave exactly so; the lemmas in StepProperties, SweepProperties,
 * RunProperties, StaleDropProperties and FailFastProperties say what
 * follows.
 */
module Schedule {
  import opened Domain
  import opened Repository

  const DatabaseName: string := "cott_db"

  const TableName: string := "test_table"

  const TableFields: seq<string> := [
    "id BIGSERIAL PRIMARY KEY", "f1 BIGINT", "f2 BIGSERIAL", "f3 BOOLEAN", "f4 DATE", "f5 FLOAT",
    "f6 REAL", "f7 INTEGER", "f8 NUMERIC", "f9 SMALLINT", "f10 SMALLSERIAL", "f11 SERIAL"]

  const TableColumns: seq<string> := ["f1", "f2", "f3", "f4", "f5", "f6", "f7", "f8", "f9", "f10", "f11"]

  const SelectConditions: string :=
    "f1>1 AND f2>1 AND f3 AND F5>0.5 AND f6>0.5 AND f7>1 AND f8>1 AND f9>1 AND f10>1 AND f11>1"

  const PostgresUserEnvVar: string := "POSTGRES_USER"
  const PostgresPasswordEnvVar: string := "POSTGRES_PASSWORD"

  /** How often the readiness loop pings before giving up. */
  const PingAttempts: nat := 300

  /** The largest batch one insert call carries (the backend's parameter limit). */
  const BatchRows: nat := 1000

  /** The last row count of the scaling sweep. */
  const LargestDataCount: int := 10000000

  /** The operations handed to the step timer: one per closure in `usecase.go`. */
  datatype Step =
    | DoOpen
    | DoAwaitReady
    | DoCreateDatabase(name: string)
    | DoSwitchDatabase(name: string)
    | DoDropDatabase(name: string)
    | DoClose
    | DoCreateTable(name: string, fields: seq<string>)
    | DoTruncateTable(name: string)
    | DoDropTable(name: string)
    | DoBulkInsert(table: string, columns: seq<string>, dataCount: int)
    | DoInsert(table: string, columns: seq<string>, count: int)
    | DoSelectById(table: string, id: int)
    | DoSelectByConditions(table: string, conditions: string)

  /** The observable state: repository calls, metric names and errors, in order. */
  datatype Log = Log(trace: seq<Call>, metrics: seq<string>, errors: seq<string>)

  /** The result of running an operation: its error (if any) and the trace after it. */
  datatype Exec = Exec(err: Option<Error>, trace: seq<Call>)

  /** The result of a timed part of the run: its error (if any) and the log after it. */
  datatype Progress = Progress(err: Option<Error>, log: Log)

  /**
   * Backend selection.  Postgres needs both credential keys in the
   * environment; every other component type is unknown.
   */
  function CreateDatabaseRepository(tc: TestCase): (r: Result<PostgresSettings, Error>)
    ensures r.Success? <==>
      tc.componentType == ComponentTypePostgres
      && PostgresUserEnvVar in tc.envVars && PostgresPasswordEnvVar in tc.envVars
    ensures r.Success? ==>
      r.value == PostgresSettings(tc.port, "localhost",
                                  tc.envVars[PostgresUserEnvVar], tc.envVars[PostgresPasswordEnvVar])
    ensures tc.componentType == ComponentTypePostgres && r.Failure? ==> r.error == NoRequiredEnvVarKey
    ensures tc.componentType != ComponentTypePostgres ==> r == Failure(UnknownComponentForTesting)
  {
    if tc.componentType == ComponentTypePostgres then
      if PostgresUserEnvVar !in tc.envVars then Failure(NoRequiredEnvVarKey)
      else if PostgresPasswordEnvVar !in tc.envVars then Failure(NoRequiredEnvVarKey)
      else Success(PostgresSettings(tc.port, "localhost",
                                    tc.envVars[PostgresUserEnvVar], tc.envVars[PostgresPasswordEnvVar]))
    else
      Failure(UnknownComponentForTesting)
  }

  /** The number of rows `generateTableData(count)` yields. */
  function RowCount(count: int): nat {
    if count > 0 then count else 0
  }

  /** Go's integer division, which truncates toward zero. */
  function Quot(a: int, b: int): (q: int)
    requires b > 0
    ensures a >= 0 ==> q == a / b
  {
    if a >= 0 then a / b else -((-a) / b)
  }

  function DigitChar(d: nat): char
    requires d < 10
  {
    "0123456789"[d]
  }

  function Digits(n: nat): (s: string)
    ensures |s| >= 1
  {
    if n < 10 then [DigitChar(n)] else Digits(n / 10) + [DigitChar(n % 10)]
  }

  /** `strconv.FormatInt(n, 10)`. */
  function FormatInt(n: int): string {
    if n < 0 then "-" + Digits(-n) else Digits(n)
  }

  function Pings(k: nat): (s: seq<Call>)
    ensures |s| == k && forall i :: 0 <= i < k ==> s[i] == Ping
  {
    seq(k, _ => Ping)
  }

  function Batches(table: string, columns: seq<string>, k: nat): (s: seq<Call>)
    ensures |s| == k && forall i :: 0 <= i < k ==> s[i] == Insert(table, columns, BatchRows)
  {
    seq(k, _ => Insert(table, columns, BatchRows))
  }

  /** One repository call, its answer turned into the tester's error. */
  function Answer(ans: Oracle, t: seq<Call>, c: Call): Exec {
    match ans(t, c)
    case Ok => Exec(None, t + [c])
    case Fail(m) => Exec(Some(RepositoryError(m)), t + [c])
  }

  /** The readiness loop with `remaining` pings left. */
  function PingLoop(ans: Oracle, t: seq<Call>, remaining: nat): Exec
    decreases remaining
  {
    if remaining == 0 then Exec(Some(ConnectionWasNotEstablished), t)
    else if ans(t, Ping).Ok? then Exec(None, t + [Ping])
    else PingLoop(ans, t + [Ping], remaining - 1)
  }

  /** The chunked bulk insert with `remaining` batches of a thousand rows left. */
  function InsertChunks(ans: Oracle, t: seq<Call>, table: string, columns: seq<string>, remaining: nat): Exec
    decreases remaining
  {
    if remaining == 0 then Exec(None, t)
    else
      var x := Answer(ans, t, Insert(table, columns, BatchRows));
      if x.err.Some? then x else InsertChunks(ans, x.trace, table, columns, remaining - 1)
  }

  /** The bulk insert of `dataCount` rows into an empty table. */
  function BulkInsertRun(ans: Oracle, t: seq<Call>, table: string, columns: seq<string>, dataCount: int): Exec {
    if dataCount > BatchRows then InsertChunks(ans, t, table, columns, dataCount / BatchRows)
    else Answer(ans, t, Insert(table, columns, RowCount(dataCount)))
  }

  /** What one step operation does on the repository. */
  function StepRun(ans: Oracle, t: seq<Call>, step: Step): Exec {
    match step
    case DoOpen => Answer(ans, t, Open)
    case DoAwaitReady => PingLoop(ans, t, PingAttempts)
    case DoCreateDatabase(name) => Answer(ans, t, CreateDatabase(name))
    case DoSwitchDatabase(name) => Answer(ans, t, SwitchDatabase(name))
    case DoDropDatabase(name) => Answer(ans, t, DropDatabase(name))
    case DoClose => Answer(ans, t, Close)
    case DoCreateTable(name, fields) => Answer(ans, t, CreateTable(name, fields))
    case DoTruncateTable(name) => Answer(ans, t, TruncateTable(name))
    case DoDropTable(name) => Answer(ans, t, DropTable(name))
    case DoBulkInsert(table, columns, n) => BulkInsertRun(ans, t, table, columns, n)
    case DoInsert(table, columns, n) => Answer(ans, t, Insert(table, columns, RowCount(n)))
    case DoSelectById(table, id) => Answer(ans, t, SelectById(table, id))
    case DoSelectByConditions(table, conditions) => Answer(ans, t, SelectByConditions(table, conditions))
  }

  /** The step timer: an error entry or a duration metric, never both. */
  function TimedStep(ans: Oracle, log: Log, step: Step, name: string): Progress {
    var x := StepRun(ans, log.trace, step);
    match x.err
    case Some(e) => Progress(x.err, Log(x.trace, log.metrics, log.errors + [name + ". " + Message(e)]))
    case None => Progress(None, Log(x.trace, log.metrics + [name + "Duration"], log.errors))
  }

  /** The label prefix of a row count: `"<n>x"`. */
  function SizePrefix(n: int): string {
    FormatInt(n) + "x"
  }

  /** The inserts into the filled table, for batch sizes `size`, `size / 10`, ..., 1. */
  function FullTableInserts(ans: Oracle, log: Log, table: string, columns: seq<string>, testPrefix: string, size: int): Progress
    decreases size
  {
    if size < 1 then Progress(None, log)
    else
      var p := TimedStep(ans, log, DoInsert(table, columns, size), SizePrefix(size) + "Insert" + testPrefix + "Table");
      if p.err.Some? then p else FullTableInserts(ans, p.log, table, columns, testPrefix, size / 10)
  }

  /** One iteration of the sweep, for `dataCount` rows. */
  function InsertSelectRun(ans: Oracle, log: Log, table: string, columns: seq<string>, conditions: string, dataCount: int): Progress {
    var prefix := SizePrefix(dataCount);
    var p1 := TimedStep(ans, log, DoBulkInsert(table, columns, dataCount), prefix + "InsertEmptyTable");
    if p1.err.Some? then p1 else
    var p2 := TimedStep(ans, p1.log, DoSelectById(table, Quot(dataCount, 2)), "selectById" + prefix + "Table");
    if p2.err.Some? then p2 else
    var p3 := TimedStep(ans, p2.log, DoSelectByConditions(table, conditions), "selectByConditions" + prefix + "Table");
    if p3.err.Some? then p3 else
    var p4 := if dataCount >= 1000 then FullTableInserts(ans, p3.log, table, columns, prefix, 1000) else p3;
    if p4.err.Some? then p4 else
    TimedStep(ans, p4.log, DoTruncateTable(table), "truncate" + prefix + "Table")
  }

  /** The scaling sweep from row count `n` on, multiplying by ten each round. */
  function SweepRun(ans: Oracle, log: Log, n: int): Progress
    requires n >= 1
    decreases LargestDataCount - n
  {
    if n > LargestDataCount then Progress(None, log)
    else
      var p := InsertSelectRun(ans, log, TableName, TableColumns, SelectConditions, n);
      if p.err.Some? then p else SweepRun(ans, p.log, n * 10)
  }

  /** The table benchmark: create, truncate, sweep, drop; each failure ends it. */
  function TableRun(ans: Oracle, log: Log): Log {
    var p1 := TimedStep(ans, log, DoCreateTable(TableName, TableFields), "createTable");
    if p1.err.Some? then p1.log else
    var p2 := TimedStep(ans, p1.log, DoTruncateTable(TableName), "truncateEmptyTable");
    if p2.err.Some? then p2.log else
    var p3 := SweepRun(ans, p2.log, 1);
    if p3.err.Some? then p3.log else
    TimedStep(ans, p3.log, DoDropTable(TableName), "dropTable").log
  }

  /**
   * Everything from creating the database on, once the stale database has
   * been dropped.
   */
  function AfterStaleDrop(ans: Oracle, db: string, log: Log): Log {
    var p1 := TimedStep(ans, log, DoCreateDatabase(db), "createDatabase");
    if p1.err.Some? then p1.log else
    var p2 := TimedStep(ans, p1.log, DoSwitchDatabase(db), "switchDatabase");
    if p2.err.Some? then p2.log else
    CleanUpRun(ans, db, TableRun(ans, p2.log))
  }

  /**
   * The clean-up after the table benchmark: switch back to the default
   * database (a refusal is recorded with the backend's message as is and
   * ends the run), drop the benchmark database, close the connection.
   */
  function CleanUpRun(ans: Oracle, db: string, log: Log): Log {
    var back := SwitchDatabase("");
    match ans(log.trace, back)
    case Fail(m) => Log(log.trace + [back], log.metrics, log.errors + [m])
    case Ok =>
      var p4 := TimedStep(ans, Log(log.trace + [back], log.metrics, log.errors), DoDropDatabase(db), "dropDatabase");
      if p4.err.Some? then p4.log else
      TimedStep(ans, p4.log, DoClose, "closeConnection").log
  }

  /**
   * A run once the repository exists: open, await readiness (its failure
   * only logged), drop the stale database (its answer ignored), then the rest.
   */
  function SessionRun(ans: Oracle, db: string, log: Log): Log {
    var p1 := TimedStep(ans, log, DoOpen, "openConnection");
    if p1.err.Some? then p1.log else
    var p2 := TimedStep(ans, p1.log, DoAwaitReady, "startUp");
    AfterStaleDrop(ans, db, Log(p2.log.trace + [DropDatabase(db)], p2.log.metrics, p2.log.errors))
  }

  /** A whole run: backend selection, then the session on the new repository. */
  function CaseRun(tc: TestCase, ans: Oracle, db: string, log: Log): Progress {
    match CreateDatabaseRepository(tc)
    case Failure(e) => Progress(Some(e), log)
    case Success(_) => Progress(None, SessionRun(ans, db, log))
  }
}
