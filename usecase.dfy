/**
 * The database tester use case: the benchmark driver that steps a
 * repository through its lifecycle and records each step's duration or
 * error in the results accumulator.  Every method of the use-case class is
 * proved to do exactly what the corresponding function of module Schedule
 * describes; the row generator, which has none, is specified directly.
 */
module Usecase {
  import opened Domain
  import opened Repository
  import opened Schedule

  /** A column value of a generated row. */
  datatype Value =
    | IntValue(i: int)
    | BoolValue(b: bool)
    | TimeValue(instant: int)      // `time.Now()`, kept opaque
    | Float32Value(bits32: bv32)   // `rand.Float32()`, kept opaque
    | Float64Value(bits64: bv64)   // `rand.Float64()`, kept opaque

  type Row = map<string, Value>

  /** A value drawn by `rand.Intn(255)`. */
  predicate IsByteDraw(v: Value) {
    v.IntValue? && 0 <= v.i < 255
  }

  /** A row of the fixed eleven-column schema. */
  predicate WellFormedRow(row: Row) {
    && row.Keys == {"f1", "f2", "f3", "f4", "f5", "f6", "f7", "f8", "f9", "f10", "f11"}
    && IsByteDraw(row["f1"]) && IsByteDraw(row["f2"])
    && row["f3"].BoolValue?
    && row["f4"].TimeValue?
    && row["f5"].Float32Value?
    && row["f6"].Float64Value?
    && IsByteDraw(row["f7"]) && IsByteDraw(row["f8"]) && IsByteDraw(row["f9"])
    && IsByteDraw(row["f10"]) && IsByteDraw(row["f11"])
  }

  /**
   * `count` fresh rows (none for a negative count).  `f3Draws` are the
   * draws `f3` was derived from: `f3` holds exactly when its draw exceeds 128.
   */
  method GenerateTableData(count: int) returns (values: seq<Row>, ghost f3Draws: seq<int>)
    ensures |values| == RowCount(count) && |f3Draws| == |values|
    ensures forall i :: 0 <= i < |values| ==> WellFormedRow(values[i])
    ensures forall i :: 0 <= i < |values| ==>
      0 <= f3Draws[i] < 255 && "f3" in values[i] && values[i]["f3"] == BoolValue(f3Draws[i] > 128)
  {
    values, f3Draws := [], [];
    var i := 0;
    while i < count
      invariant 0 <= i && |values| == i && |f3Draws| == i
      invariant i <= RowCount(count)
      invariant forall j :: 0 <= j < i ==> WellFormedRow(values[j])
      invariant forall j :: 0 <= j < i ==>
        0 <= f3Draws[j] < 255 && "f3" in values[j] && values[j]["f3"] == BoolValue(f3Draws[j] > 128)
    {
      var valuesSet: Row := map[];
      var f1 :| 0 <= f1 < 255;
      valuesSet := valuesSet["f1" := IntValue(f1)];
      var f2 :| 0 <= f2 < 255;
      valuesSet := valuesSet["f2" := IntValue(f2)];
      var f3 :| 0 <= f3 < 255;
      valuesSet := valuesSet["f3" := BoolValue(f3 > 128)];
      var now: int := *;
      valuesSet := valuesSet["f4" := TimeValue(now)];
      var f5: bv32 := *;
      valuesSet := valuesSet["f5" := Float32Value(f5)];
      var f6: bv64 := *;
      valuesSet := valuesSet["f6" := Float64Value(f6)];
      var f7 :| 0 <= f7 < 255;
      valuesSet := valuesSet["f7" := IntValue(f7)];
      var f8 :| 0 <= f8 < 255;
      valuesSet := valuesSet["f8" := IntValue(f8)];
      var f9 :| 0 <= f9 < 255;
      valuesSet := valuesSet["f9" := IntValue(f9)];
      var f10 :| 0 <= f10 < 255;
      valuesSet := valuesSet["f10" := IntValue(f10)];
      var f11 :| 0 <= f11 < 255;
      valuesSet := valuesSet["f11" := IntValue(f11)];

      values := values + [valuesSet];
      f3Draws := f3Draws + [f3];
      i := i + 1;
    }
  }

  /** The state the schedule speaks of: the repository's calls and the accumulator's entries. */
  function Observed(r: DatabaseTesterRepository, tcra: TestCaseResultsAccumulator): Log
    reads r, tcra
  {
    Log(r.trace, MetricNames(tcra.metrics), tcra.errors)
  }

  class DatabaseTesterUsecase {
    const databaseName: string

    constructor ()
      ensures databaseName == DatabaseName
    {
      databaseName := DatabaseName;
    }

    /** The readiness loop: at most `PingAttempts` pings, stopping at the first answered one. */
    method AwaitReady(r: DatabaseTesterRepository) returns (err: Option<Error>)
      modifies r
      ensures Exec(err, r.trace) == PingLoop(r.answer, old(r.trace), PingAttempts)
    {
      for i := 0 to PingAttempts
        invariant PingLoop(r.answer, old(r.trace), PingAttempts) == PingLoop(r.answer, r.trace, PingAttempts - i)
      {
        var o := r.Ping();
        if o.Ok? {
          return None;
        }
      }
      return Some(ConnectionWasNotEstablished);
    }

    /** The bulk insert into the empty table, chunked into batches of a thousand rows. */
    method BulkInsert(r: DatabaseTesterRepository, table: string, columns: seq<string>, dataCount: int)
      returns (err: Option<Error>)
      modifies r
      ensures Exec(err, r.trace) == BulkInsertRun(r.answer, old(r.trace), table, columns, dataCount)
    {
      if dataCount > BatchRows {
        var i := dataCount / BatchRows;
        while i > 0
          invariant i >= 0
          invariant BulkInsertRun(r.answer, old(r.trace), table, columns, dataCount)
                    == InsertChunks(r.answer, r.trace, table, columns, i)
        {
          var rows, _ := GenerateTableData(BatchRows);
          var o := r.Insert(table, columns, rows);
          if o.Fail? {
            return Some(RepositoryError(o.message));
          }
          i := i - 1;
        }
      } else {
        var rows, _ := GenerateTableData(dataCount);
        var o := r.Insert(table, columns, rows);
        if o.Fail? {
          return Some(RepositoryError(o.message));
        }
      }
      return None;
    }

    /** Runs the operation a step stands for. */
    method Execute(step: Step, r: DatabaseTesterRepository) returns (err: Option<Error>)
      modifies r
      ensures Exec(err, r.trace) == StepRun(r.answer, old(r.trace), step)
    {
      var o: Outcome;
      match step {
        case DoAwaitReady =>
          err := AwaitReady(r);
          return;
        case DoBulkInsert(table, columns, n) =>
          err := BulkInsert(r, table, columns, n);
          return;
        case DoOpen => o := r.Open();
        case DoCreateDatabase(name) => o := r.CreateDatabase(name);
        case DoSwitchDatabase(name) => o := r.SwitchDatabase(name);
        case DoDropDatabase(name) => o := r.DropDatabase(name);
        case DoClose => o := r.Close();
        case DoCreateTable(name, fields) => o := r.CreateTable(name, fields);
        case DoTruncateTable(name) => o := r.TruncateTable(name);
        case DoDropTable(name) => o := r.DropTable(name);
        case DoInsert(table, columns, n) =>
          var rows, _ := GenerateTableData(n);
          o := r.Insert(table, columns, rows);
        case DoSelectById(table, id) => o := r.SelectById(table, id);
        case DoSelectByConditions(table, conditions) => o := r.SelectByConditions(table, conditions);
      }
      err := if o.Fail? then Some(RepositoryError(o.message)) else None;
    }

    /**
     * The step timer.  On failure it appends `name + ". " + message` and
     * passes the error up; on success it appends one metric
     * `name + "Duration"` in whole microseconds.  Never both.
     */
    method CalcStepDuration(step: Step, name: string, tcra: TestCaseResultsAccumulator, r: DatabaseTesterRepository)
      returns (err: Option<Error>)
      modifies tcra, r
      ensures Progress(err, Observed(r, tcra)) == TimedStep(r.answer, old(Observed(r, tcra)), step, name)
      ensures err.Some? ==>
        tcra.metrics == old(tcra.metrics) && tcra.errors == old(tcra.errors) + [name + ". " + Message(err.value)]
      ensures err.None? ==>
        tcra.errors == old(tcra.errors)
        && |tcra.metrics| == |old(tcra.metrics)| + 1
        && tcra.metrics == old(tcra.metrics) + [Metric(name + "Duration", Micro, Second, tcra.metrics[|old(tcra.metrics)|].value)]
        && tcra.metrics[|old(tcra.metrics)|].value >= 0
      ensures AppendsDurations(old(tcra.metrics), tcra.metrics)
    {
      err := Execute(step, r);
      if err.Some? {
        tcra.AddError(name + ". " + Message(err.value));
        return;
      }
      var micros: nat :| true;   // time.Since(start).Microseconds()
      tcra.AddMetric(name + "Duration", Micro, Second, micros);
      MetricNamesAppend(old(tcra.metrics), Metric(name + "Duration", Micro, Second, micros));
    }

    /** One sweep iteration for `dataCount` rows; returns at the first failing step. */
    method TestTableInsertSelect(tcra: TestCaseResultsAccumulator, r: DatabaseTesterRepository, table: string,
                                 columns: seq<string>, conditions: string, dataCount: int)
      returns (err: Option<Error>)
      modifies tcra, r
      ensures Progress(err, Observed(r, tcra))
              == InsertSelectRun(r.answer, old(Observed(r, tcra)), table, columns, conditions, dataCount)
      ensures AppendsDurations(old(tcra.metrics), tcra.metrics)
    {
      ghost var ans := r.answer;
      ghost var log0 := Observed(r, tcra);
      var testPrefix := SizePrefix(dataCount);

      err := CalcStepDuration(DoBulkInsert(table, columns, dataCount), testPrefix + "InsertEmptyTable", tcra, r);
      if err.Some? {
        return;
      }
      ghost var m1 := tcra.metrics;
      err := CalcStepDuration(DoSelectById(table, Quot(dataCount, 2)), "selectById" + testPrefix + "Table", tcra, r);
      AppendsDurationsTransitive(old(tcra.metrics), m1, tcra.metrics);
      if err.Some? {
        return;
      }
      ghost var m2 := tcra.metrics;
      err := CalcStepDuration(DoSelectByConditions(table, conditions), "selectByConditions" + testPrefix + "Table", tcra, r);
      AppendsDurationsTransitive(old(tcra.metrics), m2, tcra.metrics);
      if err.Some? {
        return;
      }
      ghost var log3 := Observed(r, tcra);
      assert InsertSelectRun(ans, log0, table, columns, conditions, dataCount)
             == (var p4 := if dataCount >= 1000 then FullTableInserts(ans, log3, table, columns, testPrefix, 1000)
                           else Progress(None, log3);
                 if p4.err.Some? then p4
                 else TimedStep(ans, p4.log, DoTruncateTable(table), "truncate" + testPrefix + "Table"));

      if dataCount >= 1000 {
        var i := 1000;
        while i >= 1
          invariant 0 <= i <= 1000
          invariant FullTableInserts(ans, log3, table, columns, testPrefix, 1000)
                    == FullTableInserts(ans, Observed(r, tcra), table, columns, testPrefix, i)
          invariant AppendsDurations(old(tcra.metrics), tcra.metrics)
          invariant r.answer == ans
        {
          var insertTestPrefix := SizePrefix(i);
          ghost var mi := tcra.metrics;
          err := CalcStepDuration(DoInsert(table, columns, i), insertTestPrefix + "Insert" + testPrefix + "Table", tcra, r);
          AppendsDurationsTransitive(old(tcra.metrics), mi, tcra.metrics);
          if err.Some? {
            return;
          }
          i := i / 10;
        }
      }

      ghost var m4 := tcra.metrics;
      err := CalcStepDuration(DoTruncateTable(table), "truncate" + testPrefix + "Table", tcra, r);
      AppendsDurationsTransitive(old(tcra.metrics), m4, tcra.metrics);
    }

    /** The table benchmark: create, truncate, the scaling sweep, drop. */
    method TestTable(tcra: TestCaseResultsAccumulator, r: DatabaseTesterRepository)
      modifies tcra, r
      ensures Observed(r, tcra) == TableRun(r.answer, old(Observed(r, tcra)))
      ensures AppendsDurations(old(tcra.metrics), tcra.metrics)
    {
      ghost var ans := r.answer;
      var err := CalcStepDuration(DoCreateTable(TableName, TableFields), "createTable", tcra, r);
      if err.Some? {
        return;
      }
      ghost var m1 := tcra.metrics;
      err := CalcStepDuration(DoTruncateTable(TableName), "truncateEmptyTable", tcra, r);
      AppendsDurationsTransitive(old(tcra.metrics), m1, tcra.metrics);
      if err.Some? {
        return;
      }
      ghost var log2 := Observed(r, tcra);

      var i := 1;
      while i <= LargestDataCount
        invariant i >= 1
        invariant SweepRun(ans, log2, 1) == SweepRun(ans, Observed(r, tcra), i)
        invariant AppendsDurations(old(tcra.metrics), tcra.metrics)
        invariant r.answer == ans
        decreases LargestDataCount - i
      {
        ghost var mi := tcra.metrics;
        err := TestTableInsertSelect(tcra, r, TableName, TableColumns, SelectConditions, i);
        AppendsDurationsTransitive(old(tcra.metrics), mi, tcra.metrics);
        if err.Some? {
          return;
        }
        i := i * 10;
      }

      ghost var m3 := tcra.metrics;
      err := CalcStepDuration(DoDropTable(TableName), "dropTable", tcra, r);
      AppendsDurationsTransitive(old(tcra.metrics), m3, tcra.metrics);
    }

    /**
     * One benchmark run.  A configuration error is returned before any
     * repository exists; once one exists the run always returns nil and
     * only the accumulator tells how far it got.
     */
    method RunCase(tcra: TestCaseResultsAccumulator, answer: Oracle)
      returns (err: Option<Error>, ghost repo: DatabaseTesterRepository?)
      modifies tcra
      ensures Progress(err, ObservedIfAny(repo, tcra))
              == CaseRun(tcra.testCase, answer, databaseName, Log([], MetricNames(old(tcra.metrics)), old(tcra.errors)))
      ensures CreateDatabaseRepository(tcra.testCase).Failure? ==>
        repo == null && err == Some(CreateDatabaseRepository(tcra.testCase).error)
        && tcra.metrics == old(tcra.metrics) && tcra.errors == old(tcra.errors)
      ensures CreateDatabaseRepository(tcra.testCase).Success? ==>
        err == None && repo != null && fresh(repo) && repo.answer == answer
        && repo.settings == CreateDatabaseRepository(tcra.testCase).value
      ensures AppendsDurations(old(tcra.metrics), tcra.metrics)
    {
      var selected := CreateDatabaseRepository(tcra.testCase);
      if selected.Failure? {
        return Some(selected.error), null;
      }
      var r := new DatabaseTesterRepository(selected.value, answer);
      repo := r;
      SessionOn(tcra, r);
      return None, repo;
    }

    /** The run on an existing repository, from opening the connection to closing it. */
    method SessionOn(tcra: TestCaseResultsAccumulator, r: DatabaseTesterRepository)
      modifies tcra, r
      ensures Observed(r, tcra) == SessionRun(r.answer, databaseName, old(Observed(r, tcra)))
      ensures AppendsDurations(old(tcra.metrics), tcra.metrics)
    {
      ghost var ans := r.answer;
      var err := CalcStepDuration(DoOpen, "openConnection", tcra, r);
      if err.Some? {
        return;
      }
      ghost var m1 := tcra.metrics;
      // A failed readiness wait is only logged.
      err := CalcStepDuration(DoAwaitReady, "startUp", tcra, r);
      AppendsDurationsTransitive(old(tcra.metrics), m1, tcra.metrics);

      // The stale database is dropped on a best-effort basis.
      var dropped := r.DropDatabase(databaseName);

      ghost var m2 := tcra.metrics;
      err := CalcStepDuration(DoCreateDatabase(databaseName), "createDatabase", tcra, r);
      AppendsDurationsTransitive(old(tcra.metrics), m2, tcra.metrics);
      if err.Some? {
        return;
      }
      ghost var m3 := tcra.metrics;
      err := CalcStepDuration(DoSwitchDatabase(databaseName), "switchDatabase", tcra, r);
      AppendsDurationsTransitive(old(tcra.metrics), m3, tcra.metrics);
      if err.Some? {
        return;
      }

      ghost var m4 := tcra.metrics;
      TestTable(tcra, r);
      AppendsDurationsTransitive(old(tcra.metrics), m4, tcra.metrics);

      var back := r.SwitchDatabase("");
      if back.Fail? {
        tcra.AddError(back.message);
        return;
      }

      ghost var m5 := tcra.metrics;
      err := CalcStepDuration(DoDropDatabase(databaseName), "dropDatabase", tcra, r);
      AppendsDurationsTransitive(old(tcra.metrics), m5, tcra.metrics);
      if err.Some? {
        return;
      }
      ghost var m6 := tcra.metrics;
      err := CalcStepDuration(DoClose, "closeConnection", tcra, r);
      AppendsDurationsTransitive(old(tcra.metrics), m6, tcra.metrics);
    }
  }

  /** `Observed` for a repository that may not exist: no calls then. */
  function ObservedIfAny(r: DatabaseTesterRepository?, tcra: TestCaseResultsAccumulator): Log
    reads r, tcra
  {
    Log(if r == null then [] else r.trace, MetricNames(tcra.metrics), tcra.errors)
  }
}
