/**
 * Properties of the table benchmark: the step timer records exactly one
 * entry per step, every part only appends and records at most one error,
 * and a run that reports no error made exactly the calls and metrics of
 * the full schedule (eight row counts, 1 to 10,000,000).  That each part
 * stops at its first refused call is proved in FailFastProperties.
 */
module SweepProperties {
  import opened Domain
  import opened Repository
  import opened Schedule
  import opened StepProperties

  /**
   * `p` extends `before`, and it added one error entry if it failed and
   * none if it succeeded.
   */
  ghost predicate Settled(before: Log, p: Progress) {
    && before.trace <= p.log.trace
    && before.metrics <= p.log.metrics
    && before.errors <= p.log.errors
    && |p.log.errors| == |before.errors| + (if p.err.Some? then 1 else 0)
  }

  /** The calls the sweep makes: inserts, selects and truncates, nothing else. */
  predicate IsSweepCall(c: Call) {
    c.Insert? || c.SelectById? || c.SelectByConditions? || c.TruncateTable?
  }

  /** `after` is `before` followed by sweep calls only. */
  ghost predicate OnlySweepCalls(before: seq<Call>, after: seq<Call>) {
    before <= after && forall i :: |before| <= i < |after| ==> IsSweepCall(after[i])
  }

  /** The backend that answers every call. */
  ghost predicate AllOk(ans: Oracle) {
    forall t, c :: ans(t, c) == Ok
  }

  /**
   * The step timer records exactly one entry: a duration metric named
   * after the step when it succeeds, an error entry naming the step when
   * it fails; its outcome and its calls are the step's own.
   */
  lemma TimedStepOneEntry(ans: Oracle, log: Log, step: Step, name: string)
    ensures Settled(log, TimedStep(ans, log, step, name))
    ensures |TimedStep(ans, log, step, name).log.metrics| + |TimedStep(ans, log, step, name).log.errors|
            == |log.metrics| + |log.errors| + 1
    ensures TimedStep(ans, log, step, name).err.None? ==>
              TimedStep(ans, log, step, name).log.metrics == log.metrics + [name + "Duration"]
    ensures TimedStep(ans, log, step, name).err.Some? ==>
              TimedStep(ans, log, step, name).log.errors
              == log.errors + [name + ". " + Message(TimedStep(ans, log, step, name).err.value)]
    ensures TimedStep(ans, log, step, name).err == StepRun(ans, log.trace, step).err
    ensures TimedStep(ans, log, step, name).log.trace == StepRun(ans, log.trace, step).trace
  {
    StepRunCalls(ans, log.trace, step);
  }

  /**
   * `p` is what the step timer makes of the one call `c`, named `name`,
   * issued after `before`: the call is always recorded; the backend's
   * answer decides between the duration metric and the error entry.
   */
  ghost predicate OneCall(ans: Oracle, before: Log, c: Call, name: string, p: Progress) {
    match ans(before.trace, c)
    case Ok => p == Progress(None, Log(before.trace + [c], before.metrics + Durations([name]), before.errors))
    case Fail(m) => p == Progress(Some(RepositoryError(m)), Log(before.trace + [c], before.metrics, before.errors + [name + ". " + m]))
  }

  lemma OneCallOk(ans: Oracle, before: Log, c: Call, name: string, p: Progress)
    requires OneCall(ans, before, c, name, p) && AllOk(ans)
    ensures p == Progress(None, Log(before.trace + [c], before.metrics + Durations([name]), before.errors))
  {
    assert ans(before.trace, c).Ok?;
  }

  /** A timed step whose operation is the single call `c` behaves as `OneCall` says. */
  lemma OneCallTimed(ans: Oracle, log: Log, step: Step, name: string, c: Call)
    requires StepRun(ans, log.trace, step) == Answer(ans, log.trace, c)
    ensures OneCall(ans, log, c, name, TimedStep(ans, log, step, name))
  {
    assert Durations([name]) == [name + "Duration"];
  }

  lemma OnlySweepCallsTransitive(a: seq<Call>, b: seq<Call>, c: seq<Call>)
    requires OnlySweepCalls(a, b) && OnlySweepCalls(b, c)
    ensures OnlySweepCalls(a, c)
  {
    assert forall i :: |a| <= i < |b| ==> c[i] == b[i];
  }

  /** A sweep step adds sweep calls only. */
  lemma SweepStepCalls(ans: Oracle, t: seq<Call>, step: Step)
    requires step.DoBulkInsert? || step.DoInsert? || step.DoSelectById? || step.DoSelectByConditions?
             || step.DoTruncateTable?
    ensures OnlySweepCalls(t, StepRun(ans, t, step).trace)
  {
    var x := StepRun(ans, t, step);
    if step.DoBulkInsert? {
      var n := step.dataCount;
      BulkInsertChunking(ans, t, step.table, step.columns, n);
      if n > BatchRows {
        var k :| 1 <= k <= n / BatchRows && x.trace == t + Batches(step.table, step.columns, k);
        assert x.trace[|t|..] == Batches(step.table, step.columns, k);
      }
    }
  }

  /**
   * The inserts into the filled table only append, record one error exactly
   * when they fail, and make sweep calls only.
   */
  lemma {:induction false} FullTableInsertsSettled(ans: Oracle, log: Log, table: string, columns: seq<string>,
                                                    testPrefix: string, size: int)
    ensures Settled(log, FullTableInserts(ans, log, table, columns, testPrefix, size))
    ensures OnlySweepCalls(log.trace, FullTableInserts(ans, log, table, columns, testPrefix, size).log.trace)
    decreases size
  {
    if size >= 1 {
      var step := DoInsert(table, columns, size);
      var name := SizePrefix(size) + "Insert" + testPrefix + "Table";
      var p := TimedStep(ans, log, step, name);
      TimedStepOneEntry(ans, log, step, name);
      SweepStepCalls(ans, log.trace, step);
      if p.err.None? {
        FullTableInsertsSettled(ans, p.log, table, columns, testPrefix, size / 10);
        var q := FullTableInserts(ans, p.log, table, columns, testPrefix, size / 10);
        OnlySweepCallsTransitive(log.trace, p.log.trace, q.log.trace);
      }
    }
  }

  /**
   * One iteration of the sweep only appends, records one error exactly when
   * it fails, and makes sweep calls only (its fail-fast order is
   * `FailFastProperties.InsertSelectFailFast`).
   */
  lemma InsertSelectSettled(ans: Oracle, log: Log, table: string, columns: seq<string>, conditions: string,
                            dataCount: int)
    ensures Settled(log, InsertSelectRun(ans, log, table, columns, conditions, dataCount))
    ensures OnlySweepCalls(log.trace, InsertSelectRun(ans, log, table, columns, conditions, dataCount).log.trace)
  {
    var prefix := SizePrefix(dataCount);
    var s1 := DoBulkInsert(table, columns, dataCount);
    var p1 := TimedStep(ans, log, s1, prefix + "InsertEmptyTable");
    TimedStepOneEntry(ans, log, s1, prefix + "InsertEmptyTable");
    SweepStepCalls(ans, log.trace, s1);
    if p1.err.None? {
      var s2 := DoSelectById(table, Quot(dataCount, 2));
      var p2 := TimedStep(ans, p1.log, s2, "selectById" + prefix + "Table");
      TimedStepOneEntry(ans, p1.log, s2, "selectById" + prefix + "Table");
      SweepStepCalls(ans, p1.log.trace, s2);
      OnlySweepCallsTransitive(log.trace, p1.log.trace, p2.log.trace);
      if p2.err.None? {
        var s3 := DoSelectByConditions(table, conditions);
        var p3 := TimedStep(ans, p2.log, s3, "selectByConditions" + prefix + "Table");
        TimedStepOneEntry(ans, p2.log, s3, "selectByConditions" + prefix + "Table");
        SweepStepCalls(ans, p2.log.trace, s3);
        OnlySweepCallsTransitive(log.trace, p2.log.trace, p3.log.trace);
        if p3.err.None? {
          var p4 := if dataCount >= 1000 then FullTableInserts(ans, p3.log, table, columns, prefix, 1000) else p3;
          FullTableInsertsSettled(ans, p3.log, table, columns, prefix, 1000);
          assert Settled(p2.log, p3);
          OnlySweepCallsTransitive(log.trace, p3.log.trace, p4.log.trace);
          if p4.err.None? {
            var s5 := DoTruncateTable(table);
            var p5 := TimedStep(ans, p4.log, s5, "truncate" + prefix + "Table");
            TimedStepOneEntry(ans, p4.log, s5, "truncate" + prefix + "Table");
            SweepStepCalls(ans, p4.log.trace, s5);
            OnlySweepCallsTransitive(log.trace, p4.log.trace, p5.log.trace);
          }
        }
      }
    }
  }

  /**
   * The sweep only appends, records one error exactly when it fails, and
   * makes sweep calls only (its fail-fast order is
   * `FailFastProperties.SweepFailFast`).
   */
  lemma {:induction false} SweepSettled(ans: Oracle, log: Log, n: int)
    requires n >= 1
    ensures Settled(log, SweepRun(ans, log, n))
    ensures OnlySweepCalls(log.trace, SweepRun(ans, log, n).log.trace)
    decreases LargestDataCount - n
  {
    if n <= LargestDataCount {
      var p := InsertSelectRun(ans, log, TableName, TableColumns, SelectConditions, n);
      InsertSelectSettled(ans, log, TableName, TableColumns, SelectConditions, n);
      if p.err.None? {
        SweepSettled(ans, p.log, n * 10);
        OnlySweepCallsTransitive(log.trace, p.log.trace, SweepRun(ans, p.log, n * 10).log.trace);
      }
    }
  }

  // ---------------------------------------------------------------------
  // The full schedule, written out independently of the run functions.
  // ---------------------------------------------------------------------

  /** The row counts of the sweep. */
  const BenchmarkSizes: seq<int> := [1, 10, 100, 1000, 10000, 100000, 1000000, 10000000]

  /** The row counts the sweep runs from `n` on. */
  function SweepSizes(n: int): (sizes: seq<int>)
    requires n >= 1
    ensures forall i :: 0 <= i < |sizes| ==> n <= sizes[i] <= LargestDataCount
    decreases LargestDataCount - n
  {
    if n > LargestDataCount then [] else [n] + SweepSizes(n * 10)
  }

  /** The sweep runs the eight powers of ten from 1 to 10,000,000, in order. */
  lemma SweepSizesFromOne()
    ensures SweepSizes(1) == BenchmarkSizes
  {
    var s8 := SweepSizes(10000000);
    assert s8 == [10000000] + SweepSizes(100000000);
    var s7 := SweepSizes(1000000);
    assert s7 == [1000000] + s8;
    var s6 := SweepSizes(100000);
    assert s6 == [100000] + s7;
    var s5 := SweepSizes(10000);
    assert s5 == [10000] + s6;
    var s4 := SweepSizes(1000);
    assert s4 == [1000] + s5;
    var s3 := SweepSizes(100);
    assert s3 == [100] + s4;
    var s2 := SweepSizes(10);
    assert s2 == [10] + s3;
    assert SweepSizes(1) == [1] + s2;
  }

  lemma SizePrefixes()
    ensures SizePrefix(1000) == "1000x" && SizePrefix(100) == "100x"
    ensures SizePrefix(10) == "10x" && SizePrefix(1) == "1x"
  {
    assert Digits(1) == "1";
    assert Digits(10) == Digits(1) + "0" == "10";
    assert Digits(100) == Digits(10) + "0" == "100";
    assert Digits(1000) == Digits(100) + "0" == "1000";
  }

  /** The calls of the bulk insert of `n` rows when all of them succeed. */
  function BulkCalls(table: string, columns: seq<string>, n: int): seq<Call> {
    if n > BatchRows then Batches(table, columns, n / BatchRows) else [Insert(table, columns, RowCount(n))]
  }

  /** The calls of one whole iteration for `n` rows. */
  function IterationCalls(table: string, columns: seq<string>, conditions: string, n: int): seq<Call> {
    BulkCalls(table, columns, n) + [SelectById(table, Quot(n, 2))] + [SelectByConditions(table, conditions)]
    + FilledInsertCalls(table, columns, n) + [TruncateTable(table)]
  }

  /** The step names of one whole iteration for `n` rows. */
  function IterationLabels(n: int): seq<string> {
    var p := SizePrefix(n);
    [p + "InsertEmptyTable"] + ["selectById" + p + "Table"] + ["selectByConditions" + p + "Table"]
    + FilledInsertLabels(p, n) + ["truncate" + p + "Table"]
  }

  /** The inserts into the filled table: batch sizes 1000, 100, 10 and 1, from 1000 rows on. */
  function FilledInsertCalls(table: string, columns: seq<string>, n: int): seq<Call> {
    if n >= 1000 then FullTableCalls(table, columns, 1000) else []
  }

  function FilledInsertLabels(p: string, n: int): seq<string> {
    if n >= 1000 then FullTableLabels(p, 1000) else []
  }

  function SweepCalls(table: string, columns: seq<string>, conditions: string, sizes: seq<int>): seq<Call> {
    if sizes == [] then []
    else IterationCalls(table, columns, conditions, sizes[0]) + SweepCalls(table, columns, conditions, sizes[1..])
  }

  function SweepLabels(sizes: seq<int>): seq<string> {
    if sizes == [] then [] else IterationLabels(sizes[0]) + SweepLabels(sizes[1..])
  }

  /** The calls of the whole table benchmark, for a sweep over `sizes`. */
  function TableCalls(sizes: seq<int>): seq<Call> {
    [CreateTable(TableName, TableFields)] + [TruncateTable(TableName)]
    + SweepCalls(TableName, TableColumns, SelectConditions, sizes) + [DropTable(TableName)]
  }

  /** The step names of the whole table benchmark, for a sweep over `sizes`. */
  function TableLabels(sizes: seq<int>): seq<string> {
    ["createTable"] + ["truncateEmptyTable"] + SweepLabels(sizes) + ["dropTable"]
  }

  /** The metric names the step timer records for steps named `labels`. */
  function Durations(labels: seq<string>): (names: seq<string>)
    ensures |names| == |labels| && forall i :: 0 <= i < |labels| ==> names[i] == labels[i] + "Duration"
  {
    seq(|labels|, i requires 0 <= i < |labels| => labels[i] + "Duration")
  }

  lemma DurationsAppend(a: seq<string>, b: seq<string>)
    ensures Durations(a + b) == Durations(a) + Durations(b)
  {
  }

  // ---------------------------------------------------------------------
  // Success means the full schedule.
  // ---------------------------------------------------------------------

  /** The calls of the inserts into the filled table from batch size `size` down. */
  function FullTableCalls(table: string, columns: seq<string>, size: int): seq<Call>
    decreases size
  {
    if size < 1 then [] else [Insert(table, columns, RowCount(size))] + FullTableCalls(table, columns, size / 10)
  }

  /** Their step names. */
  function FullTableLabels(p: string, size: int): seq<string>
    decreases size
  {
    if size < 1 then [] else [SizePrefix(size) + "Insert" + p + "Table"] + FullTableLabels(p, size / 10)
  }

  lemma {:induction false} FullTableInsertsSuccess(ans: Oracle, log: Log, table: string, columns: seq<string>,
                                                    p: string, size: int)
    requires FullTableInserts(ans, log, table, columns, p, size).err.None?
    ensures FullTableInserts(ans, log, table, columns, p, size).log
            == Log(log.trace + FullTableCalls(table, columns, size),
                   log.metrics + Durations(FullTableLabels(p, size)), log.errors)
    decreases size
  {
    if size >= 1 {
      var name := SizePrefix(size) + "Insert" + p + "Table";
      var q := TimedStep(ans, log, DoInsert(table, columns, size), name);
      OneCallTimed(ans, log, DoInsert(table, columns, size), name, Insert(table, columns, RowCount(size)));
      assert FullTableInserts(ans, log, table, columns, p, size) == FullTableInserts(ans, q.log, table, columns, p, size / 10);
      FullTableInsertsSuccess(ans, q.log, table, columns, p, size / 10);
      DurationsAppend([name], FullTableLabels(p, size / 10));
      Compose(log, q.log, FullTableInserts(ans, q.log, table, columns, p, size / 10).log,
              [Insert(table, columns, RowCount(size))], FullTableCalls(table, columns, size / 10),
              Durations([name]), Durations(FullTableLabels(p, size / 10)));
    }
  }

  /** Starting from a thousand, the batch sizes are 1000, 100, 10 and 1. */
  lemma FullTableFrom1000(table: string, columns: seq<string>, p: string)
    ensures FullTableCalls(table, columns, 1000)
            == [Insert(table, columns, 1000), Insert(table, columns, 100), Insert(table, columns, 10), Insert(table, columns, 1)]
    ensures FullTableLabels(p, 1000)
            == ["1000xInsert" + p + "Table", "100xInsert" + p + "Table", "10xInsert" + p + "Table", "1xInsert" + p + "Table"]
  {
    SizePrefixes();
    assert FullTableCalls(table, columns, 1) == [Insert(table, columns, 1)] + FullTableCalls(table, columns, 0);
    assert FullTableLabels(p, 1) == [SizePrefix(1) + "Insert" + p + "Table"] + FullTableLabels(p, 0);
    assert "1000x" + "Insert" == "1000xInsert" && "100x" + "Insert" == "100xInsert";
    assert "10x" + "Insert" == "10xInsert" && "1x" + "Insert" == "1xInsert";
  }

  /** An iteration's five parts, what each adds when it succeeds, and how the iteration puts them together. */
  lemma InsertSelectParts(ans: Oracle, log: Log, table: string, columns: seq<string>, conditions: string, n: int)
    returns (p1: Progress, p2: Progress, p3: Progress, p4: Progress, p5: Progress)
    ensures var p := SizePrefix(n);
      && (p1.err.None? ==>
            p1.log == Log(log.trace + BulkCalls(table, columns, n), log.metrics + Durations([p + "InsertEmptyTable"]), log.errors))
      && (p2.err.None? ==>
            p2.log == Log(p1.log.trace + [SelectById(table, Quot(n, 2))], p1.log.metrics + Durations(["selectById" + p + "Table"]),
                          p1.log.errors))
      && (p3.err.None? ==>
            p3.log == Log(p2.log.trace + [SelectByConditions(table, conditions)],
                          p2.log.metrics + Durations(["selectByConditions" + p + "Table"]), p2.log.errors))
      && (p4.err.None? ==>
            p4.log == if n >= 1000 then
                        Log(p3.log.trace + FullTableCalls(table, columns, 1000), p3.log.metrics + Durations(FullTableLabels(p, 1000)),
                            p3.log.errors)
                      else p3.log)
      && (p5.err.None? ==>
            p5.log == Log(p4.log.trace + [TruncateTable(table)], p4.log.metrics + Durations(["truncate" + p + "Table"]), p4.log.errors))
    ensures InsertSelectRun(ans, log, table, columns, conditions, n)
            == if p1.err.Some? then p1 else if p2.err.Some? then p2 else if p3.err.Some? then p3
               else if p4.err.Some? then p4 else p5
  {
    var prefix := SizePrefix(n);
    p1 := TimedStep(ans, log, DoBulkInsert(table, columns, n), prefix + "InsertEmptyTable");
    BulkStage(ans, log, table, columns, n, prefix + "InsertEmptyTable");
    p2 := TimedStep(ans, p1.log, DoSelectById(table, Quot(n, 2)), "selectById" + prefix + "Table");
    SelectByIdStage(ans, p1.log, table, Quot(n, 2), "selectById" + prefix + "Table");
    p3 := TimedStep(ans, p2.log, DoSelectByConditions(table, conditions), "selectByConditions" + prefix + "Table");
    SelectByConditionsStage(ans, p2.log, table, conditions, "selectByConditions" + prefix + "Table");
    p4 := if n >= 1000 then FullTableInserts(ans, p3.log, table, columns, prefix, 1000) else p3;
    FilledStage(ans, p3, table, columns, prefix, n);
    p5 := TimedStep(ans, p4.log, DoTruncateTable(table), "truncate" + prefix + "Table");
    TruncateStage(ans, p4.log, table, "truncate" + prefix + "Table");
  }

  /** From a thousand rows on, the inserts into the filled table that succeed add their calls and metrics. */
  lemma FilledStage(ans: Oracle, p3: Progress, table: string, columns: seq<string>, prefix: string, n: int)
    ensures var p4 := if n >= 1000 then FullTableInserts(ans, p3.log, table, columns, prefix, 1000) else p3;
      p4.err.None? ==>
        p4.log == if n >= 1000 then
                    Log(p3.log.trace + FullTableCalls(table, columns, 1000), p3.log.metrics + Durations(FullTableLabels(prefix, 1000)),
                        p3.log.errors)
                  else p3.log
  {
    if n >= 1000 && FullTableInserts(ans, p3.log, table, columns, prefix, 1000).err.None? {
      FullTableInsertsSuccess(ans, p3.log, table, columns, prefix, 1000);
    }
  }

  /** A bulk insert step that succeeds adds the calls of `BulkCalls` and its duration metric. */
  lemma BulkStage(ans: Oracle, log: Log, table: string, columns: seq<string>, n: int, name: string)
    ensures TimedStep(ans, log, DoBulkInsert(table, columns, n), name).err.None? ==>
              TimedStep(ans, log, DoBulkInsert(table, columns, n), name).log
              == Log(log.trace + BulkCalls(table, columns, n), log.metrics + Durations([name]), log.errors)
  {
    if n > BatchRows {
      InsertChunksSuccess(ans, log.trace, table, columns, n / BatchRows);
    }
    assert Durations([name]) == [name + "Duration"];
  }


  lemma SelectByIdStage(ans: Oracle, log: Log, table: string, id: int, name: string)
    ensures TimedStep(ans, log, DoSelectById(table, id), name).err.None? ==>
              TimedStep(ans, log, DoSelectById(table, id), name).log
              == Log(log.trace + [SelectById(table, id)], log.metrics + Durations([name]), log.errors)
  {
    OneCallTimed(ans, log, DoSelectById(table, id), name, SelectById(table, id));
  }

  lemma SelectByConditionsStage(ans: Oracle, log: Log, table: string, conditions: string, name: string)
    ensures TimedStep(ans, log, DoSelectByConditions(table, conditions), name).err.None? ==>
              TimedStep(ans, log, DoSelectByConditions(table, conditions), name).log
              == Log(log.trace + [SelectByConditions(table, conditions)], log.metrics + Durations([name]), log.errors)
  {
    OneCallTimed(ans, log, DoSelectByConditions(table, conditions), name, SelectByConditions(table, conditions));
  }

  lemma TruncateStage(ans: Oracle, log: Log, table: string, name: string)
    ensures TimedStep(ans, log, DoTruncateTable(table), name).err.None? ==>
              TimedStep(ans, log, DoTruncateTable(table), name).log
              == Log(log.trace + [TruncateTable(table)], log.metrics + Durations([name]), log.errors)
  {
    OneCallTimed(ans, log, DoTruncateTable(table), name, TruncateTable(table));
  }

  /** An iteration that reports no error made exactly the calls and metrics of `IterationCalls`/`IterationLabels`. */
  lemma InsertSelectSuccess(ans: Oracle, log: Log, table: string, columns: seq<string>, conditions: string,
                            dataCount: int)
    requires InsertSelectRun(ans, log, table, columns, conditions, dataCount).err.None?
    ensures InsertSelectRun(ans, log, table, columns, conditions, dataCount).log
            == Log(log.trace + IterationCalls(table, columns, conditions, dataCount),
                   log.metrics + Durations(IterationLabels(dataCount)), log.errors)
  {
    var p1, p2, p3, p4, p5 := InsertSelectParts(ans, log, table, columns, conditions, dataCount);
    IterationComposed(table, columns, conditions, dataCount, log, p1.log, p2.log, p3.log, p4.log, p5.log);
  }

  /** The logs of an iteration's steps, put together. */
  lemma IterationComposed(table: string, columns: seq<string>, conditions: string, n: int,
                          l0: Log, l1: Log, l2: Log, l3: Log, l4: Log, l5: Log)
    requires var p := SizePrefix(n);
      && l1 == Log(l0.trace + BulkCalls(table, columns, n), l0.metrics + Durations([p + "InsertEmptyTable"]), l0.errors)
      && l2 == Log(l1.trace + [SelectById(table, Quot(n, 2))], l1.metrics + Durations(["selectById" + p + "Table"]), l0.errors)
      && l3 == Log(l2.trace + [SelectByConditions(table, conditions)],
                   l2.metrics + Durations(["selectByConditions" + p + "Table"]), l0.errors)
      && l4 == (if n >= 1000 then
                  Log(l3.trace + FullTableCalls(table, columns, 1000), l3.metrics + Durations(FullTableLabels(p, 1000)), l0.errors)
                else l3)
      && l5 == Log(l4.trace + [TruncateTable(table)], l4.metrics + Durations(["truncate" + p + "Table"]), l0.errors)
    ensures l5 == Log(l0.trace + IterationCalls(table, columns, conditions, n),
                      l0.metrics + Durations(IterationLabels(n)), l0.errors)
  {
    var p := SizePrefix(n);
    var filled := FilledInsertCalls(table, columns, n);
    var filledNames := Durations(FilledInsertLabels(p, n));
    assert l4 == Log(l3.trace + filled, l3.metrics + filledNames, l0.errors);
    Compose5(l0, l1, l2, l3, l4, l5, BulkCalls(table, columns, n), [SelectById(table, Quot(n, 2))],
             [SelectByConditions(table, conditions)], filled, [TruncateTable(table)],
             Durations([p + "InsertEmptyTable"]), Durations(["selectById" + p + "Table"]),
             Durations(["selectByConditions" + p + "Table"]), filledNames, Durations(["truncate" + p + "Table"]));
    DurationsAppend5([p + "InsertEmptyTable"], ["selectById" + p + "Table"], ["selectByConditions" + p + "Table"],
                     FilledInsertLabels(p, n), ["truncate" + p + "Table"]);
  }

  /** Five logs, each extending the one before, put together. */
  lemma Compose5(l0: Log, l1: Log, l2: Log, l3: Log, l4: Log, l5: Log,
                 c1: seq<Call>, c2: seq<Call>, c3: seq<Call>, c4: seq<Call>, c5: seq<Call>,
                 m1: seq<string>, m2: seq<string>, m3: seq<string>, m4: seq<string>, m5: seq<string>)
    requires l1 == Log(l0.trace + c1, l0.metrics + m1, l0.errors)
    requires l2 == Log(l1.trace + c2, l1.metrics + m2, l0.errors)
    requires l3 == Log(l2.trace + c3, l2.metrics + m3, l0.errors)
    requires l4 == Log(l3.trace + c4, l3.metrics + m4, l0.errors)
    requires l5 == Log(l4.trace + c5, l4.metrics + m5, l0.errors)
    ensures l5 == Log(l0.trace + (c1 + c2 + c3 + c4 + c5), l0.metrics + (m1 + m2 + m3 + m4 + m5), l0.errors)
  {
  }

  lemma DurationsAppend5(a: seq<string>, b: seq<string>, c: seq<string>, d: seq<string>, e: seq<string>)
    ensures Durations(a + b + c + d + e) == Durations(a) + Durations(b) + Durations(c) + Durations(d) + Durations(e)
  {
    DurationsAppend4(a, b, c, d);
    DurationsAppend(a + b + c + d, e);
  }

  lemma {:induction false} SweepSuccess(ans: Oracle, log: Log, n: int)
    requires n >= 1
    requires SweepRun(ans, log, n).err.None?
    ensures SweepRun(ans, log, n).log
            == Log(log.trace + SweepCalls(TableName, TableColumns, SelectConditions, SweepSizes(n)), log.metrics + Durations(SweepLabels(SweepSizes(n))), log.errors)
    decreases LargestDataCount - n
  {
    if n <= LargestDataCount {
      var p := InsertSelectRun(ans, log, TableName, TableColumns, SelectConditions, n);
      InsertSelectSuccess(ans, log, TableName, TableColumns, SelectConditions, n);
      SweepSuccess(ans, p.log, n * 10);
      SweepUnfold(TableName, TableColumns, SelectConditions, n);
      Compose(log, p.log, SweepRun(ans, p.log, n * 10).log,
              IterationCalls(TableName, TableColumns, SelectConditions, n),
              SweepCalls(TableName, TableColumns, SelectConditions, SweepSizes(n * 10)),
              Durations(IterationLabels(n)), Durations(SweepLabels(SweepSizes(n * 10))));
    }
  }

  /** Two parts that each added calls and metrics, one after the other. */
  lemma Compose(l0: Log, l1: Log, l2: Log, calls1: seq<Call>, calls2: seq<Call>, names1: seq<string>, names2: seq<string>)
    requires l1 == Log(l0.trace + calls1, l0.metrics + names1, l0.errors)
    requires l2 == Log(l1.trace + calls2, l1.metrics + names2, l0.errors)
    ensures l2 == Log(l0.trace + (calls1 + calls2), l0.metrics + (names1 + names2), l0.errors)
  {
  }

  /** The sweep from `n` is the iteration for `n`, then the sweep from `10 * n`. */
  lemma SweepUnfold(table: string, columns: seq<string>, conditions: string, n: int)
    requires 1 <= n <= LargestDataCount
    ensures SweepCalls(table, columns, conditions, SweepSizes(n))
            == IterationCalls(table, columns, conditions, n) + SweepCalls(table, columns, conditions, SweepSizes(n * 10))
    ensures Durations(SweepLabels(SweepSizes(n))) == Durations(IterationLabels(n)) + Durations(SweepLabels(SweepSizes(n * 10)))
  {
    assert SweepSizes(n) == [n] + SweepSizes(n * 10);
    assert SweepSizes(n)[1..] == SweepSizes(n * 10);
    DurationsAppend(IterationLabels(n), SweepLabels(SweepSizes(n * 10)));
  }

  // ---------------------------------------------------------------------
  // The table benchmark as a whole.
  // ---------------------------------------------------------------------

  /** The head of the table benchmark: create the table and empty it. */
  const TableHead: seq<Call> := [CreateTable(TableName, TableFields)] + [TruncateTable(TableName)]

  lemma TableCallsParts(sizes: seq<int>)
    ensures TableCalls(sizes) == TableHead + SweepCalls(TableName, TableColumns, SelectConditions, sizes) + [DropTable(TableName)]
    ensures |TableCalls(sizes)| >= 3 && TableCalls(sizes)[|TableCalls(sizes)| - 1] == DropTable(TableName)
  {
  }

  lemma CreateTableStage(ans: Oracle, log: Log)
    ensures var p := TimedStep(ans, log, DoCreateTable(TableName, TableFields), "createTable");
      && Settled(log, p) && p.log.trace == log.trace + [CreateTable(TableName, TableFields)]
      && (p.err.None? ==>
            p.log == Log(log.trace + [CreateTable(TableName, TableFields)], log.metrics + Durations(["createTable"]), log.errors))
    ensures AllOk(ans) ==> TimedStep(ans, log, DoCreateTable(TableName, TableFields), "createTable").err.None?
  {
    TimedStepOneEntry(ans, log, DoCreateTable(TableName, TableFields), "createTable");
    OneCallTimed(ans, log, DoCreateTable(TableName, TableFields), "createTable", CreateTable(TableName, TableFields));
    if AllOk(ans) {
      assert ans(log.trace, CreateTable(TableName, TableFields)) == Ok;
    }
  }

  lemma TruncateTableStage(ans: Oracle, log: Log)
    ensures var p := TimedStep(ans, log, DoTruncateTable(TableName), "truncateEmptyTable");
      && Settled(log, p) && p.log.trace == log.trace + [TruncateTable(TableName)]
      && (p.err.None? ==>
            p.log == Log(log.trace + [TruncateTable(TableName)], log.metrics + Durations(["truncateEmptyTable"]), log.errors))
    ensures AllOk(ans) ==> TimedStep(ans, log, DoTruncateTable(TableName), "truncateEmptyTable").err.None?
  {
    TimedStepOneEntry(ans, log, DoTruncateTable(TableName), "truncateEmptyTable");
    OneCallTimed(ans, log, DoTruncateTable(TableName), "truncateEmptyTable", TruncateTable(TableName));
    if AllOk(ans) {
      assert ans(log.trace, TruncateTable(TableName)) == Ok;
    }
  }

  lemma DropTableStage(ans: Oracle, log: Log)
    ensures var p := TimedStep(ans, log, DoDropTable(TableName), "dropTable");
      && Settled(log, p) && p.log.trace == log.trace + [DropTable(TableName)]
      && (p.err.None? ==> p.log == Log(log.trace + [DropTable(TableName)], log.metrics + Durations(["dropTable"]), log.errors))
    ensures AllOk(ans) ==> TimedStep(ans, log, DoDropTable(TableName), "dropTable").err.None?
  {
    TimedStepOneEntry(ans, log, DoDropTable(TableName), "dropTable");
    OneCallTimed(ans, log, DoDropTable(TableName), "dropTable", DropTable(TableName));
    if AllOk(ans) {
      assert ans(log.trace, DropTable(TableName)) == Ok;
    }
  }

  /** The whole sweep, as one stage of the table benchmark. */
  lemma SweepStage(ans: Oracle, log: Log)
    ensures var p := SweepRun(ans, log, 1);
      && Settled(log, p) && OnlySweepCalls(log.trace, p.log.trace)
      && (p.err.None? ==>
            p.log == Log(log.trace + SweepCalls(TableName, TableColumns, SelectConditions, SweepSizes(1)),
                         log.metrics + Durations(SweepLabels(SweepSizes(1))), log.errors))
    ensures AllOk(ans) ==> SweepRun(ans, log, 1).err.None?
  {
    SweepSettled(ans, log, 1);
    if SweepRun(ans, log, 1).err.None? {
      SweepSuccess(ans, log, 1);
    }
    if AllOk(ans) {
      SweepAllOk(ans, log, 1);
    }
  }

  /**
   * Four parts run one after the other, each ending the run when it fails:
   * the run only appends, records at most one error, and records none
   * exactly when every part succeeded, in which case it ends with the last.
   */
  lemma FailFast4(l0: Log, p1: Progress, p2: Progress, p3: Progress, p4: Progress, r: Log)
    requires Settled(l0, p1) && Settled(p1.log, p2) && Settled(p2.log, p3) && Settled(p3.log, p4)
    requires r == if p1.err.Some? then p1.log else if p2.err.Some? then p2.log
                  else if p3.err.Some? then p3.log else p4.log
    ensures l0.trace <= r.trace && l0.metrics <= r.metrics
    ensures l0.errors <= r.errors && |r.errors| <= |l0.errors| + 1
    ensures r.errors == l0.errors <==> p1.err.None? && p2.err.None? && p3.err.None? && p4.err.None?
    ensures r.errors == l0.errors ==> r == p4.log
  {
  }

  /** The table benchmark's four parts, and how it puts them together. */
  lemma TableRunParts(ans: Oracle, log: Log) returns (p1: Progress, p2: Progress, p3: Progress, p4: Progress)
    ensures Settled(log, p1) && Settled(p1.log, p2) && Settled(p2.log, p3) && Settled(p3.log, p4)
    ensures p1.log.trace == log.trace + [CreateTable(TableName, TableFields)]
    ensures p2.log.trace == p1.log.trace + [TruncateTable(TableName)]
    ensures OnlySweepCalls(p2.log.trace, p3.log.trace)
    ensures p4.log.trace == p3.log.trace + [DropTable(TableName)]
    ensures p1.err.None? ==>
              p1.log == Log(log.trace + [CreateTable(TableName, TableFields)], log.metrics + Durations(["createTable"]), log.errors)
    ensures p2.err.None? ==>
              p2.log == Log(p1.log.trace + [TruncateTable(TableName)], p1.log.metrics + Durations(["truncateEmptyTable"]), p1.log.errors)
    ensures p3.err.None? ==>
              p3.log == Log(p2.log.trace + SweepCalls(TableName, TableColumns, SelectConditions, SweepSizes(1)),
                            p2.log.metrics + Durations(SweepLabels(SweepSizes(1))), p2.log.errors)
    ensures p4.err.None? ==>
              p4.log == Log(p3.log.trace + [DropTable(TableName)], p3.log.metrics + Durations(["dropTable"]), p3.log.errors)
    ensures AllOk(ans) ==> p1.err.None? && p2.err.None? && p3.err.None? && p4.err.None?
    ensures TableRun(ans, log) == if p1.err.Some? then p1.log else if p2.err.Some? then p2.log
                                  else if p3.err.Some? then p3.log else p4.log
  {
    p1 := TimedStep(ans, log, DoCreateTable(TableName, TableFields), "createTable");
    CreateTableStage(ans, log);
    p2 := TimedStep(ans, p1.log, DoTruncateTable(TableName), "truncateEmptyTable");
    TruncateTableStage(ans, p1.log);
    p3 := SweepRun(ans, p2.log, 1);
    SweepStage(ans, p2.log);
    p4 := TimedStep(ans, p3.log, DoDropTable(TableName), "dropTable");
    DropTableStage(ans, p3.log);
  }

  /**
   * Where the table benchmark can stop: after creating the table, after
   * truncating it, inside the sweep (which then records the error), or not
   * until the whole schedule, table drop included, has been issued.
   */
  lemma TableRunShape(ans: Oracle, log: Log)
    ensures var r := TableRun(ans, log);
      || (r.trace == log.trace + [CreateTable(TableName, TableFields)])
      || (r.trace == log.trace + TableHead)
      || (OnlySweepCalls(log.trace + TableHead, r.trace) && |r.errors| == |log.errors| + 1)
      || r.trace == log.trace + TableCalls(SweepSizes(1))
  {
    var p1, p2, p3, p4 := TableRunParts(ans, log);
    StopPoints(log, p1, p2, p3, p4, TableRun(ans, log), SweepSizes(1));
  }

  /** Where a run of the table benchmark's four parts can stop, for a sweep over `sizes`. */
  lemma StopPoints(l0: Log, p1: Progress, p2: Progress, p3: Progress, p4: Progress, r: Log, sizes: seq<int>)
    requires Settled(p2.log, p3)
    requires p1.log.trace == l0.trace + [CreateTable(TableName, TableFields)]
    requires p2.log.trace == p1.log.trace + [TruncateTable(TableName)]
    requires OnlySweepCalls(p2.log.trace, p3.log.trace)
    requires p4.log.trace == p3.log.trace + [DropTable(TableName)]
    requires p1.err.None? ==> p1.log.errors == l0.errors
    requires p2.err.None? ==> p2.log.errors == p1.log.errors
    requires p3.err.None? ==> p3.log.trace == p2.log.trace + SweepCalls(TableName, TableColumns, SelectConditions, sizes)
    requires r == if p1.err.Some? then p1.log else if p2.err.Some? then p2.log
                  else if p3.err.Some? then p3.log else p4.log
    ensures || (r.trace == l0.trace + [CreateTable(TableName, TableFields)])
            || (r.trace == l0.trace + TableHead)
            || (OnlySweepCalls(l0.trace + TableHead, r.trace) && |r.errors| == |l0.errors| + 1)
            || r.trace == l0.trace + TableCalls(sizes)
  {
    AppendAssoc(l0.trace, [CreateTable(TableName, TableFields)], [TruncateTable(TableName)]);
    if p1.err.None? && p2.err.None? && p3.err.None? {
      AppendAssoc(l0.trace + TableHead, SweepCalls(TableName, TableColumns, SelectConditions, sizes), [DropTable(TableName)]);
      AppendAssoc(l0.trace, TableHead, SweepCalls(TableName, TableColumns, SelectConditions, sizes));
      AppendAssoc(l0.trace, TableHead + SweepCalls(TableName, TableColumns, SelectConditions, sizes), [DropTable(TableName)]);
    }
  }

  lemma AppendAssoc(a: seq<Call>, b: seq<Call>, c: seq<Call>)
    ensures a + b + c == a + (b + c)
  {
  }

  /** The calls the table benchmark makes: table creation and drop, and sweep calls. */
  predicate IsTableCall(c: Call) {
    c.CreateTable? || c.DropTable? || IsSweepCall(c)
  }

  /** `after` is `before` followed by table benchmark calls only. */
  ghost predicate OnlyTableCalls(before: seq<Call>, after: seq<Call>) {
    before <= after && forall i :: |before| <= i < |after| ==> IsTableCall(after[i])
  }

  /** The table benchmark makes table benchmark calls only. */
  lemma TableRunCalls(ans: Oracle, log: Log)
    ensures OnlyTableCalls(log.trace, TableRun(ans, log).trace)
  {
    var p1, p2, p3, p4 := TableRunParts(ans, log);
    TableStopCalls(log, p1, p2, p3, p4, TableRun(ans, log));
  }

  lemma TableStopCalls(l0: Log, p1: Progress, p2: Progress, p3: Progress, p4: Progress, r: Log)
    requires p1.log.trace == l0.trace + [CreateTable(TableName, TableFields)]
    requires p2.log.trace == p1.log.trace + [TruncateTable(TableName)]
    requires OnlySweepCalls(p2.log.trace, p3.log.trace)
    requires p4.log.trace == p3.log.trace + [DropTable(TableName)]
    requires r == if p1.err.Some? then p1.log else if p2.err.Some? then p2.log
                  else if p3.err.Some? then p3.log else p4.log
    ensures OnlyTableCalls(l0.trace, r.trace)
  {
    assert OnlyTableCalls(l0.trace, p2.log.trace);
    assert OnlyTableCalls(l0.trace, p3.log.trace) by {
      forall i | |l0.trace| <= i < |p3.log.trace|
        ensures IsTableCall(p3.log.trace[i])
      {
        if i >= |p2.log.trace| {
          assert IsSweepCall(p3.log.trace[i]);
        } else {
          assert p3.log.trace[i] == p2.log.trace[i];
        }
      }
    }
  }

  /** A suffix of sweep calls holds no table drop. */
  lemma SweepCallsHoldNoDrop(before: seq<Call>, after: seq<Call>)
    requires OnlySweepCalls(before, after)
    ensures DropTable(TableName) !in after[|before|..]
  {
    forall i | 0 <= i < |after[|before|..]|
      ensures after[|before|..][i] != DropTable(TableName)
    {
      assert after[|before|..][i] == after[|before| + i];
    }
  }

  /** Of the four places the table benchmark can stop, only the last follows a table drop. */
  lemma DropOnlyAtEnd(before: seq<Call>, after: seq<Call>, sizes: seq<int>)
    requires || after == before + [CreateTable(TableName, TableFields)]
             || after == before + TableHead
             || OnlySweepCalls(before + TableHead, after)
             || after == before + TableCalls(sizes)
    ensures before <= after
    ensures DropTable(TableName) in after[|before|..] <==> after == before + TableCalls(sizes)
  {
    TableCallsParts(sizes);
    if after == before + TableCalls(sizes) {
      assert after[|before|..] == TableCalls(sizes);
      assert after[|before|..][|TableCalls(sizes)| - 1] == DropTable(TableName);
    } else if after == before + [CreateTable(TableName, TableFields)] {
      assert after[|before|..] == [CreateTable(TableName, TableFields)];
    } else if after == before + TableHead {
      assert after[|before|..] == TableHead;
    } else {
      var t := before + TableHead;
      SweepCallsHoldNoDrop(t, after);
      SuffixSplit(before, TableHead, after);
    }
  }

  /** What follows `before` in `after` starts with `h` when `before + h` is a prefix of `after`. */
  lemma SuffixSplit(before: seq<Call>, h: seq<Call>, after: seq<Call>)
    requires before + h <= after
    ensures after[|before|..] == h + after[|before + h|..]
  {
    assert after[|before|..][..|h|] == h;
  }

  /** The table benchmark issues the table drop only after all eight iterations succeeded. */
  lemma DropTableOnlyAfterFullSweep(ans: Oracle, log: Log)
    ensures log.trace <= TableRun(ans, log).trace
    ensures DropTable(TableName) in TableRun(ans, log).trace[|log.trace|..] <==>
              TableRun(ans, log).trace == log.trace + TableCalls(SweepSizes(1))
  {
    TableRunShape(ans, log);
    DropOnlyAtEnd(log.trace, TableRun(ans, log).trace, SweepSizes(1));
  }

  /** The table benchmark only appends, and records at most one error. */
  lemma TableRunSettled(ans: Oracle, log: Log)
    ensures log.trace <= TableRun(ans, log).trace && log.metrics <= TableRun(ans, log).metrics
    ensures log.errors <= TableRun(ans, log).errors && |TableRun(ans, log).errors| <= |log.errors| + 1
  {
    var p1, p2, p3, p4 := TableRunParts(ans, log);
    FailFast4(log, p1, p2, p3, p4, TableRun(ans, log));
  }

  /** A table benchmark that records no error ran the full schedule. */
  lemma TableRunSuccess(ans: Oracle, log: Log)
    requires TableRun(ans, log).errors == log.errors
    ensures TableRun(ans, log) == Log(log.trace + TableCalls(SweepSizes(1)), log.metrics + Durations(TableLabels(SweepSizes(1))), log.errors)
  {
    var p1, p2, p3, p4 := TableRunParts(ans, log);
    FailFast4(log, p1, p2, p3, p4, TableRun(ans, log));
    TableComposed(SweepSizes(1), log, p1.log, p2.log, p3.log, p4.log);
  }

  /** The logs of the table benchmark's parts, put together. */
  lemma TableComposed(sizes: seq<int>, l0: Log, l1: Log, l2: Log, l3: Log, l4: Log)
    requires l1 == Log(l0.trace + [CreateTable(TableName, TableFields)], l0.metrics + Durations(["createTable"]), l0.errors)
    requires l2 == Log(l1.trace + [TruncateTable(TableName)], l1.metrics + Durations(["truncateEmptyTable"]), l0.errors)
    requires l3 == Log(l2.trace + SweepCalls(TableName, TableColumns, SelectConditions, sizes),
                       l2.metrics + Durations(SweepLabels(sizes)), l0.errors)
    requires l4 == Log(l3.trace + [DropTable(TableName)], l3.metrics + Durations(["dropTable"]), l0.errors)
    ensures l4 == Log(l0.trace + TableCalls(sizes), l0.metrics + Durations(TableLabels(sizes)), l0.errors)
  {
    Compose4(l0, l1, l2, l3, l4, [CreateTable(TableName, TableFields)], [TruncateTable(TableName)],
             SweepCalls(TableName, TableColumns, SelectConditions, sizes), [DropTable(TableName)],
             Durations(["createTable"]), Durations(["truncateEmptyTable"]), Durations(SweepLabels(sizes)),
             Durations(["dropTable"]));
    DurationsAppend4(["createTable"], ["truncateEmptyTable"], SweepLabels(sizes), ["dropTable"]);
  }

  /** Four logs, each extending the one before, put together. */
  lemma Compose4(l0: Log, l1: Log, l2: Log, l3: Log, l4: Log, c1: seq<Call>, c2: seq<Call>, c3: seq<Call>,
                 c4: seq<Call>, m1: seq<string>, m2: seq<string>, m3: seq<string>, m4: seq<string>)
    requires l1 == Log(l0.trace + c1, l0.metrics + m1, l0.errors)
    requires l2 == Log(l1.trace + c2, l1.metrics + m2, l0.errors)
    requires l3 == Log(l2.trace + c3, l2.metrics + m3, l0.errors)
    requires l4 == Log(l3.trace + c4, l3.metrics + m4, l0.errors)
    ensures l4 == Log(l0.trace + (c1 + c2 + c3 + c4), l0.metrics + (m1 + m2 + m3 + m4), l0.errors)
  {
  }

  lemma DurationsAppend4(a: seq<string>, b: seq<string>, c: seq<string>, d: seq<string>)
    ensures Durations(a + b + c + d) == Durations(a) + Durations(b) + Durations(c) + Durations(d)
  {
    DurationsAppend(a, b);
    DurationsAppend(a + b, c);
    DurationsAppend(a + b + c, d);
  }

  /**
   * The table benchmark records at most one error; it records none exactly
   * when it ran the full schedule; and it drops the table only after all
   * eight iterations succeeded.
   */
  lemma TableRunOutcome(ans: Oracle, log: Log)
    ensures log.trace <= TableRun(ans, log).trace && log.metrics <= TableRun(ans, log).metrics
    ensures log.errors <= TableRun(ans, log).errors && |TableRun(ans, log).errors| <= |log.errors| + 1
    ensures TableRun(ans, log).errors == log.errors ==>
              TableRun(ans, log) == Log(log.trace + TableCalls(SweepSizes(1)), log.metrics + Durations(TableLabels(SweepSizes(1))), log.errors)
    ensures DropTable(TableName) in TableRun(ans, log).trace[|log.trace|..] <==>
              TableRun(ans, log).trace == log.trace + TableCalls(SweepSizes(1))
  {
    TableRunSettled(ans, log);
    DropTableOnlyAfterFullSweep(ans, log);
    if TableRun(ans, log).errors == log.errors {
      TableRunSuccess(ans, log);
    }
  }

  // ---------------------------------------------------------------------
  // Against a backend that answers every call.
  // ---------------------------------------------------------------------

  lemma {:induction false} InsertChunksAllOk(ans: Oracle, t: seq<Call>, table: string, columns: seq<string>, n: nat)
    requires AllOk(ans)
    ensures InsertChunks(ans, t, table, columns, n).err.None?
    decreases n
  {
    if n > 0 {
      InsertChunksAllOk(ans, t + [Insert(table, columns, BatchRows)], table, columns, n - 1);
    }
  }

  lemma StepAllOk(ans: Oracle, t: seq<Call>, step: Step)
    requires AllOk(ans)
    ensures StepRun(ans, t, step).err.None?
  {
    match step
    case DoBulkInsert(table, columns, n) =>
      if n > BatchRows {
        InsertChunksAllOk(ans, t, table, columns, n / BatchRows);
      }
    case DoAwaitReady =>
      assert ans(t, Ping).Ok?;
    case _ =>
  }

  lemma InsertSelectAllOk(ans: Oracle, log: Log, table: string, columns: seq<string>, conditions: string,
                          dataCount: int)
    requires AllOk(ans)
    ensures InsertSelectRun(ans, log, table, columns, conditions, dataCount).err.None?
  {
    var prefix := SizePrefix(dataCount);
    var p1 := TimedStep(ans, log, DoBulkInsert(table, columns, dataCount), prefix + "InsertEmptyTable");
    StepAllOk(ans, log.trace, DoBulkInsert(table, columns, dataCount));
    var p2 := TimedStep(ans, p1.log, DoSelectById(table, Quot(dataCount, 2)), "selectById" + prefix + "Table");
    StepAllOk(ans, p1.log.trace, DoSelectById(table, Quot(dataCount, 2)));
    var p3 := TimedStep(ans, p2.log, DoSelectByConditions(table, conditions), "selectByConditions" + prefix + "Table");
    StepAllOk(ans, p2.log.trace, DoSelectByConditions(table, conditions));
    var l1 := TimedStep(ans, p3.log, DoInsert(table, columns, 1000), SizePrefix(1000) + "Insert" + prefix + "Table").log;
    var l2 := TimedStep(ans, l1, DoInsert(table, columns, 100), SizePrefix(100) + "Insert" + prefix + "Table").log;
    var l3 := TimedStep(ans, l2, DoInsert(table, columns, 10), SizePrefix(10) + "Insert" + prefix + "Table").log;
    assert ans(p3.log.trace, Insert(table, columns, 1000)).Ok?;
    assert ans(l1.trace, Insert(table, columns, 100)).Ok?;
    assert ans(l2.trace, Insert(table, columns, 10)).Ok?;
    assert ans(l3.trace, Insert(table, columns, 1)).Ok?;
    assert FullTableInserts(ans, l3, table, columns, prefix, 1000 / 10 / 10 / 10 / 10) == Progress(None, l3);
    var p4 := if dataCount >= 1000 then FullTableInserts(ans, p3.log, table, columns, prefix, 1000) else p3;
    StepAllOk(ans, p4.log.trace, DoTruncateTable(table));
  }

  lemma {:induction false} SweepAllOk(ans: Oracle, log: Log, n: int)
    requires AllOk(ans) && n >= 1
    ensures SweepRun(ans, log, n).err.None?
    decreases LargestDataCount - n
  {
    if n <= LargestDataCount {
      InsertSelectAllOk(ans, log, TableName, TableColumns, SelectConditions, n);
      SweepAllOk(ans, InsertSelectRun(ans, log, TableName, TableColumns, SelectConditions, n).log, n * 10);
    }
  }

  /** Against a backend that answers every call, a timed step succeeds. */
  lemma TimedStepAllOk(ans: Oracle, log: Log, step: Step, name: string)
    requires AllOk(ans)
    ensures TimedStep(ans, log, step, name).err.None?
  {
    StepAllOk(ans, log.trace, step);
    TimedStepOneEntry(ans, log, step, name);
  }

  /** Against a backend that answers every call, the table benchmark runs its full schedule. */
  lemma TableRunAllOk(ans: Oracle, log: Log)
    requires AllOk(ans)
    ensures TableRun(ans, log) == Log(log.trace + TableCalls(SweepSizes(1)), log.metrics + Durations(TableLabels(SweepSizes(1))), log.errors)
  {
    var p1, p2, p3, p4 := TableRunParts(ans, log);
    FailFast4(log, p1, p2, p3, p4, TableRun(ans, log));
    TableRunSuccess(ans, log);
  }

  /**
   * With no remainder to drop, every bulk insert of the sweep writes all
   * of its rows when it succeeds.
   */
  lemma SweepBulkInsertsComplete(ans: Oracle, t: seq<Call>, n: int)
    requires n in BenchmarkSizes
    requires BulkInsertRun(ans, t, TableName, TableColumns, n).err.None?
    ensures |t| <= |BulkInsertRun(ans, t, TableName, TableColumns, n).trace|
    ensures RowsInserted(BulkInsertRun(ans, t, TableName, TableColumns, n).trace[|t|..]) == n
  {
    BulkInsertRowsWritten(ans, t, TableName, TableColumns, n);
  }
}
