/**
 * The stale database drop at the start of a session is neither recorded
 * nor fatal: two backends that differ only in how they answer it lead to
 * the same session, call for call, metric for metric, error for error.
 *
 * The proof goes through congruence: every part of the run asks the
 * backend only about histories that extend the one it starts from, so two
 * backends that agree on those give the same result.
 */
module StaleDropProperties {
  import opened Domain
  import opened Repository
  import opened Schedule
  import opened SweepProperties
  import opened RunProperties

  /** `a1` and `a2` answer every call alike once the history extends `t0`. */
  ghost predicate AgreeFrom(a1: Oracle, a2: Oracle, t0: seq<Call>) {
    forall t, c :: t0 <= t ==> a1(t, c) == a2(t, c)
  }

  /** `a1` and `a2` answer every ping alike once the history extends `t0`. */
  ghost predicate PingsAgreeFrom(a1: Oracle, a2: Oracle, t0: seq<Call>) {
    forall t :: t0 <= t ==> a1(t, Ping) == a2(t, Ping)
  }

  lemma PrefixAppend(t0: seq<Call>, t: seq<Call>, cs: seq<Call>)
    requires t0 <= t
    ensures t0 <= t + cs
  {
    assert (t + cs)[..|t0|] == t[..|t0|];
  }

  lemma {:induction false} PingLoopAgree(a1: Oracle, a2: Oracle, t0: seq<Call>, t: seq<Call>, remaining: nat)
    requires PingsAgreeFrom(a1, a2, t0) && t0 <= t
    ensures PingLoop(a1, t, remaining) == PingLoop(a2, t, remaining)
    decreases remaining
  {
    if remaining > 0 && a1(t, Ping).Fail? {
      PrefixAppend(t0, t, [Ping]);
      PingLoopAgree(a1, a2, t0, t + [Ping], remaining - 1);
    }
  }

  lemma {:induction false} InsertChunksAgree(a1: Oracle, a2: Oracle, t0: seq<Call>, t: seq<Call>, table: string,
                                             columns: seq<string>, remaining: nat)
    requires AgreeFrom(a1, a2, t0) && t0 <= t
    ensures InsertChunks(a1, t, table, columns, remaining) == InsertChunks(a2, t, table, columns, remaining)
    decreases remaining
  {
    if remaining > 0 {
      var c := Insert(table, columns, BatchRows);
      assert a1(t, c) == a2(t, c);
      if a1(t, c).Ok? {
        PrefixAppend(t0, t, [c]);
        InsertChunksAgree(a1, a2, t0, t + [c], table, columns, remaining - 1);
      }
    }
  }

  /** Agreeing backends make every step operation behave alike. */
  lemma StepRunAgree(a1: Oracle, a2: Oracle, t0: seq<Call>, t: seq<Call>, step: Step)
    requires AgreeFrom(a1, a2, t0) && t0 <= t
    ensures StepRun(a1, t, step) == StepRun(a2, t, step)
  {
    match step
    case DoAwaitReady =>
      PingLoopAgree(a1, a2, t0, t, PingAttempts);
    case DoBulkInsert(table, columns, n) =>
      if n > BatchRows {
        InsertChunksAgree(a1, a2, t0, t, table, columns, n / BatchRows);
      } else {
        assert a1(t, Insert(table, columns, RowCount(n))) == a2(t, Insert(table, columns, RowCount(n)));
      }
    case _ =>
  }

  lemma TimedStepSameRun(a1: Oracle, a2: Oracle, log: Log, step: Step, name: string)
    requires StepRun(a1, log.trace, step) == StepRun(a2, log.trace, step)
    ensures TimedStep(a1, log, step, name) == TimedStep(a2, log, step, name)
  {
  }

  /** Agreeing backends make the step timer behave alike; the log only grows. */
  lemma TimedStepAgree(a1: Oracle, a2: Oracle, t0: seq<Call>, log: Log, step: Step, name: string)
    requires AgreeFrom(a1, a2, t0) && t0 <= log.trace
    ensures TimedStep(a1, log, step, name) == TimedStep(a2, log, step, name)
    ensures t0 <= TimedStep(a1, log, step, name).log.trace
  {
    StepRunAgree(a1, a2, t0, log.trace, step);
    TimedStepSameRun(a1, a2, log, step, name);
    TimedStepOneEntry(a1, log, step, name);
  }

  lemma {:induction false} FullTableInsertsAgree(a1: Oracle, a2: Oracle, t0: seq<Call>, log: Log, table: string,
                                                 columns: seq<string>, testPrefix: string, size: int)
    requires AgreeFrom(a1, a2, t0) && t0 <= log.trace
    ensures FullTableInserts(a1, log, table, columns, testPrefix, size)
            == FullTableInserts(a2, log, table, columns, testPrefix, size)
    ensures t0 <= FullTableInserts(a1, log, table, columns, testPrefix, size).log.trace
    decreases size
  {
    if size >= 1 {
      var name := SizePrefix(size) + "Insert" + testPrefix + "Table";
      TimedStepAgree(a1, a2, t0, log, DoInsert(table, columns, size), name);
      var p := TimedStep(a1, log, DoInsert(table, columns, size), name);
      if p.err.None? {
        FullTableInsertsAgree(a1, a2, t0, p.log, table, columns, testPrefix, size / 10);
      }
    }
  }

  lemma InsertSelectAgree(a1: Oracle, a2: Oracle, t0: seq<Call>, log: Log, table: string, columns: seq<string>,
                          conditions: string, dataCount: int)
    requires AgreeFrom(a1, a2, t0) && t0 <= log.trace
    ensures InsertSelectRun(a1, log, table, columns, conditions, dataCount)
            == InsertSelectRun(a2, log, table, columns, conditions, dataCount)
    ensures t0 <= InsertSelectRun(a1, log, table, columns, conditions, dataCount).log.trace
  {
    var prefix := SizePrefix(dataCount);
    var s1 := DoBulkInsert(table, columns, dataCount);
    TimedStepAgree(a1, a2, t0, log, s1, prefix + "InsertEmptyTable");
    var p1 := TimedStep(a1, log, s1, prefix + "InsertEmptyTable");
    if p1.err.None? {
      var s2 := DoSelectById(table, Quot(dataCount, 2));
      TimedStepAgree(a1, a2, t0, p1.log, s2, "selectById" + prefix + "Table");
      var p2 := TimedStep(a1, p1.log, s2, "selectById" + prefix + "Table");
      if p2.err.None? {
        var s3 := DoSelectByConditions(table, conditions);
        TimedStepAgree(a1, a2, t0, p2.log, s3, "selectByConditions" + prefix + "Table");
        var p3 := TimedStep(a1, p2.log, s3, "selectByConditions" + prefix + "Table");
        if p3.err.None? {
          if dataCount >= 1000 {
            FullTableInsertsAgree(a1, a2, t0, p3.log, table, columns, prefix, 1000);
          }
          var p4 := if dataCount >= 1000 then FullTableInserts(a1, p3.log, table, columns, prefix, 1000) else p3;
          if p4.err.None? {
            TimedStepAgree(a1, a2, t0, p4.log, DoTruncateTable(table), "truncate" + prefix + "Table");
          }
        }
      }
    }
  }

  lemma {:induction false} SweepAgree(a1: Oracle, a2: Oracle, t0: seq<Call>, log: Log, n: int)
    requires n >= 1 && AgreeFrom(a1, a2, t0) && t0 <= log.trace
    ensures SweepRun(a1, log, n) == SweepRun(a2, log, n)
    ensures t0 <= SweepRun(a1, log, n).log.trace
    decreases LargestDataCount - n
  {
    if n <= LargestDataCount {
      InsertSelectAgree(a1, a2, t0, log, TableName, TableColumns, SelectConditions, n);
      var p := InsertSelectRun(a1, log, TableName, TableColumns, SelectConditions, n);
      if p.err.None? {
        SweepAgree(a1, a2, t0, p.log, n * 10);
      }
    }
  }

  lemma TableRunAgree(a1: Oracle, a2: Oracle, t0: seq<Call>, log: Log)
    requires AgreeFrom(a1, a2, t0) && t0 <= log.trace
    ensures TableRun(a1, log) == TableRun(a2, log)
    ensures t0 <= TableRun(a1, log).trace
  {
    TimedStepAgree(a1, a2, t0, log, DoCreateTable(TableName, TableFields), "createTable");
    var p1 := TimedStep(a1, log, DoCreateTable(TableName, TableFields), "createTable");
    if p1.err.None? {
      TimedStepAgree(a1, a2, t0, p1.log, DoTruncateTable(TableName), "truncateEmptyTable");
      var p2 := TimedStep(a1, p1.log, DoTruncateTable(TableName), "truncateEmptyTable");
      if p2.err.None? {
        SweepAgree(a1, a2, t0, p2.log, 1);
        var p3 := SweepRun(a1, p2.log, 1);
        if p3.err.None? {
          TimedStepAgree(a1, a2, t0, p3.log, DoDropTable(TableName), "dropTable");
        }
      }
    }
  }

  lemma CleanUpAgree(a1: Oracle, a2: Oracle, t0: seq<Call>, db: string, log: Log)
    requires AgreeFrom(a1, a2, t0) && t0 <= log.trace
    ensures CleanUpRun(a1, db, log) == CleanUpRun(a2, db, log)
  {
    assert a1(log.trace, SwitchDatabase("")) == a2(log.trace, SwitchDatabase(""));
    var back := SwitchedBack(log);
    PrefixAppend(t0, log.trace, [SwitchDatabase("")]);
    TimedStepAgree(a1, a2, t0, back, DoDropDatabase(db), "dropDatabase");
    var p4 := TimedStep(a1, back, DoDropDatabase(db), "dropDatabase");
    TimedStepAgree(a1, a2, t0, p4.log, DoClose, "closeConnection");
  }

  lemma AfterStaleDropAgree(a1: Oracle, a2: Oracle, t0: seq<Call>, db: string, log: Log)
    requires AgreeFrom(a1, a2, t0) && t0 <= log.trace
    ensures AfterStaleDrop(a1, db, log) == AfterStaleDrop(a2, db, log)
  {
    TimedStepAgree(a1, a2, t0, log, DoCreateDatabase(db), "createDatabase");
    var p1 := TimedStep(a1, log, DoCreateDatabase(db), "createDatabase");
    TimedStepAgree(a1, a2, t0, p1.log, DoSwitchDatabase(db), "switchDatabase");
    var p2 := TimedStep(a1, p1.log, DoSwitchDatabase(db), "switchDatabase");
    TableRunAgree(a1, a2, t0, p2.log);
    CleanUpAgree(a1, a2, t0, db, TableRun(a1, p2.log));
  }

  /**
   * `a1` and `a2` differ at most in how they answer a drop of database
   * `db` issued before any other drop of it.
   */
  ghost predicate DifferOnlyOnFirstDrop(a1: Oracle, a2: Oracle, db: string) {
    forall t, c :: a1(t, c) != a2(t, c) ==> c == DropDatabase(db) && DropDatabase(db) !in t
  }

  /**
   * The stale drop is neither recorded nor fatal: whatever the backend
   * answers to it, the session makes the same calls and records the same
   * metrics and errors.
   */
  lemma StaleDropIgnored(a1: Oracle, a2: Oracle, db: string, log: Log)
    requires DifferOnlyOnFirstDrop(a1, a2, db)
    ensures SessionRun(a1, db, log) == SessionRun(a2, db, log)
  {
    assert a1(log.trace, Open) == a2(log.trace, Open);
    TimedStepSameRun(a1, a2, log, DoOpen, "openConnection");
    var p1 := TimedStep(a1, log, DoOpen, "openConnection");
    if p1.err.None? {
      PingLoopAgree(a1, a2, p1.log.trace, p1.log.trace, PingAttempts);
      TimedStepSameRun(a1, a2, p1.log, DoAwaitReady, "startUp");
      var p2 := TimedStep(a1, p1.log, DoAwaitReady, "startUp");
      var l := StaleDropped(db, p2.log);
      forall t, c | l.trace <= t
        ensures a1(t, c) == a2(t, c)
      {
        assert t[|l.trace| - 1] == DropDatabase(db);
      }
      AfterStaleDropAgree(a1, a2, l.trace, db, l);
    }
  }
}
