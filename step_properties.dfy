/**
 * Properties of the single steps: the readiness loop, the chunked bulk
 * insert and the step timer.
 */
module StepProperties {
  import opened Domain
  import opened Repository
  import opened Schedule

  /** The call a full batch of the bulk insert makes. */
  function BatchInsert(table: string, columns: seq<string>): Call {
    Insert(table, columns, BatchRows)
  }

  lemma PingsShift(t: seq<Call>, j: nat)
    ensures t + [Ping] + Pings(j) == t + Pings(j + 1)
  {
    assert [Ping] + Pings(j) == Pings(j + 1);
  }

  lemma BatchesShift(t: seq<Call>, table: string, columns: seq<string>, j: nat)
    ensures t + [BatchInsert(table, columns)] + Batches(table, columns, j) == t + Batches(table, columns, j + 1)
  {
    assert [BatchInsert(table, columns)] + Batches(table, columns, j) == Batches(table, columns, j + 1);
  }

  /** The first `n` pings after `t` all fail. */
  ghost predicate PingsFail(ans: Oracle, t: seq<Call>, n: nat) {
    forall j :: 0 <= j < n ==> ans(t + Pings(j), Ping).Fail?
  }

  /** Ping number `k` after `t` is the first one answered. */
  ghost predicate FirstAnsweredPing(ans: Oracle, t: seq<Call>, k: nat) {
    1 <= k && ans(t + Pings(k - 1), Ping).Ok? && PingsFail(ans, t, k - 1)
  }

  /**
   * The readiness loop with a budget of `budget` pings: on failure it made
   * every ping and every one failed; on success it stopped at the first
   * ping that was answered.
   */
  lemma {:induction false} PingLoopOutcome(ans: Oracle, t: seq<Call>, budget: nat)
    ensures PingLoop(ans, t, budget).err.Some? ==>
              && PingLoop(ans, t, budget).err == Some(ConnectionWasNotEstablished)
              && PingLoop(ans, t, budget).trace == t + Pings(budget)
              && PingsFail(ans, t, budget)
    ensures PingLoop(ans, t, budget).err.None? ==>
              exists k :: 1 <= k <= budget && PingLoop(ans, t, budget).trace == t + Pings(k) && FirstAnsweredPing(ans, t, k)
    decreases budget
  {
    assert t + Pings(0) == t;
    if budget == 0 {
    } else if ans(t, Ping).Ok? {
      assert t + Pings(1) == t + [Ping];
    } else {
      PingLoopOutcome(ans, t + [Ping], budget - 1);
      var x := PingLoop(ans, t + [Ping], budget - 1);
      assert PingLoop(ans, t, budget) == x;
      PingsShift(t, budget - 1);
      if x.err.Some? {
        forall j | 0 <= j < budget
          ensures ans(t + Pings(j), Ping).Fail?
        {
          if j > 0 {
            PingsShift(t, j - 1);
          }
        }
      } else {
        var k :| 1 <= k <= budget - 1 && x.trace == t + [Ping] + Pings(k) && FirstAnsweredPing(ans, t + [Ping], k);
        PingsShift(t, k);
        PingsShift(t, k - 1);
        forall j | 0 <= j < k
          ensures ans(t + Pings(j), Ping).Fail?
        {
          if j > 0 {
            PingsShift(t, j - 1);
          }
        }
      }
    }
  }

  /**
   * The startUp step: between 1 and 300 pings; it fails, with
   * CONNECTION_WAS_NOT_ESTABLISHED after exactly 300 pings, precisely when
   * none of the first 300 pings is answered.
   */
  lemma ReadinessLoop(ans: Oracle, t: seq<Call>)
    ensures var x := StepRun(ans, t, DoAwaitReady);
      && (exists k :: 1 <= k <= PingAttempts && x.trace == t + Pings(k))
      && (x.err.None? <==> exists j :: 0 <= j < PingAttempts && ans(t + Pings(j), Ping).Ok?)
      && (x.err.Some? ==> x.err == Some(ConnectionWasNotEstablished) && x.trace == t + Pings(PingAttempts))
  {
    PingLoopOutcome(ans, t, PingAttempts);
    var x := StepRun(ans, t, DoAwaitReady);
    if x.err.None? {
      var k :| 1 <= k <= PingAttempts && x.trace == t + Pings(k) && ans(t + Pings(k - 1), Ping).Ok?;
      assert 0 <= k - 1 < PingAttempts;
    } else {
      assert 1 <= PingAttempts <= PingAttempts && x.trace == t + Pings(PingAttempts);
    }
  }

  /** The first `n` batch inserts after `t` are all answered. */
  ghost predicate BatchesOk(ans: Oracle, t: seq<Call>, table: string, columns: seq<string>, n: nat) {
    forall j :: 0 <= j < n ==> ans(t + Batches(table, columns, j), BatchInsert(table, columns)).Ok?
  }

  /** Batch number `k` after `t` is the first one that fails. */
  ghost predicate FirstFailedBatch(ans: Oracle, t: seq<Call>, table: string, columns: seq<string>, k: nat) {
    1 <= k && ans(t + Batches(table, columns, k - 1), BatchInsert(table, columns)).Fail?
    && BatchesOk(ans, t, table, columns, k - 1)
  }

  /** An answered batch followed by `m` answered batches is `m + 1` answered batches. */
  lemma BatchesOkShift(ans: Oracle, t: seq<Call>, table: string, columns: seq<string>, m: nat)
    requires ans(t, BatchInsert(table, columns)).Ok?
    requires BatchesOk(ans, t + [BatchInsert(table, columns)], table, columns, m)
    ensures BatchesOk(ans, t, table, columns, m + 1)
  {
    var c := BatchInsert(table, columns);
    assert t + Batches(table, columns, 0) == t;
    forall j | 0 <= j < m + 1
      ensures ans(t + Batches(table, columns, j), c).Ok?
    {
      if j > 0 {
        BatchesShift(t, table, columns, j - 1);
      }
    }
  }

  /**
   * The chunked insert with `n` batches: on success it made all `n`
   * batch inserts, each answered; on failure it stopped at the first
   * batch that failed and passes that batch's message up.
   */
  lemma InsertChunksOutcome(ans: Oracle, t: seq<Call>, table: string, columns: seq<string>, n: nat)
    ensures InsertChunks(ans, t, table, columns, n).err.None? ==>
              InsertChunks(ans, t, table, columns, n).trace == t + Batches(table, columns, n)
              && BatchesOk(ans, t, table, columns, n)
    ensures InsertChunks(ans, t, table, columns, n).err.Some? ==>
              exists k :: 1 <= k <= n && InsertChunks(ans, t, table, columns, n).trace == t + Batches(table, columns, k)
                          && FirstFailedBatch(ans, t, table, columns, k)
                          && InsertChunks(ans, t, table, columns, n).err
                             == Some(RepositoryError(ans(t + Batches(table, columns, k - 1), BatchInsert(table, columns)).message))
  {
    InsertChunksSuccess(ans, t, table, columns, n);
    InsertChunksFailure(ans, t, table, columns, n);
  }

  lemma {:induction false} InsertChunksSuccess(ans: Oracle, t: seq<Call>, table: string, columns: seq<string>, n: nat)
    ensures InsertChunks(ans, t, table, columns, n).err.None? ==>
              InsertChunks(ans, t, table, columns, n).trace == t + Batches(table, columns, n)
              && BatchesOk(ans, t, table, columns, n)
    decreases n
  {
    var c := BatchInsert(table, columns);
    if n == 0 {
      assert t + Batches(table, columns, 0) == t;
    } else if ans(t, c).Ok? {
      InsertChunksSuccess(ans, t + [c], table, columns, n - 1);
      var x := InsertChunks(ans, t + [c], table, columns, n - 1);
      assert InsertChunks(ans, t, table, columns, n) == x;
      if x.err.None? {
        BatchesShift(t, table, columns, n - 1);
        BatchesOkShift(ans, t, table, columns, n - 1);
      }
    }
  }

  lemma {:induction false} InsertChunksFailure(ans: Oracle, t: seq<Call>, table: string, columns: seq<string>, n: nat)
    ensures InsertChunks(ans, t, table, columns, n).err.Some? ==>
              exists k :: 1 <= k <= n && InsertChunks(ans, t, table, columns, n).trace == t + Batches(table, columns, k)
                          && FirstFailedBatch(ans, t, table, columns, k)
                          && InsertChunks(ans, t, table, columns, n).err
                             == Some(RepositoryError(ans(t + Batches(table, columns, k - 1), BatchInsert(table, columns)).message))
    decreases n
  {
    var c := BatchInsert(table, columns);
    if n == 0 {
    } else if ans(t, c).Fail? {
      assert t + Batches(table, columns, 0) == t;
      assert t + Batches(table, columns, 1) == t + [c];
      assert FirstFailedBatch(ans, t, table, columns, 1);
    } else {
      InsertChunksFailure(ans, t + [c], table, columns, n - 1);
      var x := InsertChunks(ans, t + [c], table, columns, n - 1);
      assert InsertChunks(ans, t, table, columns, n) == x;
      if x.err.Some? {
        var k :| 1 <= k <= n - 1 && x.trace == t + [c] + Batches(table, columns, k)
                 && FirstFailedBatch(ans, t + [c], table, columns, k)
                 && x.err == Some(RepositoryError(ans(t + [c] + Batches(table, columns, k - 1), c).message));
        BatchesShift(t, table, columns, k);
        BatchesShift(t, table, columns, k - 1);
        BatchesOkShift(ans, t, table, columns, k - 1);
        assert FirstFailedBatch(ans, t, table, columns, k + 1);
      }
    }
  }

  /**
   * The bulk insert into the empty table.  Up to a thousand rows it is one
   * insert of exactly `dataCount` rows (none for a negative count); above
   * that it is up to `dataCount / 1000` inserts of a thousand rows, all of
   * them exactly when each is answered, stopping at the first failure.
   */
  lemma BulkInsertChunking(ans: Oracle, t: seq<Call>, table: string, columns: seq<string>, dataCount: int)
    ensures var x := BulkInsertRun(ans, t, table, columns, dataCount);
      && (dataCount <= BatchRows ==>
            x.trace == t + [Insert(table, columns, RowCount(dataCount))]
            && (x.err.None? <==> ans(t, Insert(table, columns, RowCount(dataCount))).Ok?))
      && (dataCount > BatchRows ==>
            && (exists k :: 1 <= k <= dataCount / BatchRows && x.trace == t + Batches(table, columns, k))
            && (x.err.None? <==>
                  forall j :: 0 <= j < dataCount / BatchRows ==> ans(t + Batches(table, columns, j), BatchInsert(table, columns)).Ok?)
            && (x.err.None? ==> x.trace == t + Batches(table, columns, dataCount / BatchRows)))
  {
    if dataCount > BatchRows {
      var n := dataCount / BatchRows;
      InsertChunksOutcome(ans, t, table, columns, n);
      var x := BulkInsertRun(ans, t, table, columns, dataCount);
      if x.err.None? {
        assert 1 <= n <= n && x.trace == t + Batches(table, columns, n);
      }
    }
  }

  /** The number of rows the insert calls of `calls` carry. */
  function RowsInserted(calls: seq<Call>): nat {
    if calls == [] then 0
    else (if calls[0].Insert? then calls[0].rows else 0) + RowsInserted(calls[1..])
  }

  lemma {:induction false} RowsInsertedAppend(a: seq<Call>, b: seq<Call>)
    ensures RowsInserted(a + b) == RowsInserted(a) + RowsInserted(b)
    decreases |a|
  {
    if a == [] {
      assert a + b == b;
    } else {
      assert (a + b)[1..] == a[1..] + b;
      RowsInsertedAppend(a[1..], b);
    }
  }

  lemma {:induction false} RowsInsertedBatches(table: string, columns: seq<string>, k: nat)
    ensures RowsInserted(Batches(table, columns, k)) == BatchRows * k
    decreases k
  {
    if k > 0 {
      assert Batches(table, columns, k)[1..] == Batches(table, columns, k - 1);
      RowsInsertedBatches(table, columns, k - 1);
    }
  }

  /**
   * A successful bulk insert writes every row up to a thousand, and above
   * a thousand drops the remainder: it writes `dataCount - dataCount % 1000`
   * rows.
   */
  lemma BulkInsertRowsWritten(ans: Oracle, t: seq<Call>, table: string, columns: seq<string>, dataCount: int)
    requires BulkInsertRun(ans, t, table, columns, dataCount).err.None?
    ensures var x := BulkInsertRun(ans, t, table, columns, dataCount);
      |t| <= |x.trace|
      && RowsInserted(x.trace[|t|..]) == if dataCount > BatchRows then dataCount - dataCount % BatchRows else RowCount(dataCount)
  {
    BulkInsertChunking(ans, t, table, columns, dataCount);
    var x := BulkInsertRun(ans, t, table, columns, dataCount);
    if dataCount > BatchRows {
      assert x.trace[|t|..] == Batches(table, columns, dataCount / BatchRows);
      RowsInsertedBatches(table, columns, dataCount / BatchRows);
    } else {
      assert x.trace[|t|..] == [Insert(table, columns, RowCount(dataCount))];
      assert [Insert(table, columns, RowCount(dataCount))][1..] == [];
    }
  }

  /**
   * The remainder quirk on 1500 rows: whatever the backend answers, the
   * bulk insert issues one batch of a thousand rows and nothing for the
   * other 500, and succeeds exactly when that batch is accepted.
   */
  lemma BulkInsertOf1500(ans: Oracle, t: seq<Call>, table: string, columns: seq<string>)
    ensures BulkInsertRun(ans, t, table, columns, 1500).trace == t + [Insert(table, columns, 1000)]
    ensures BulkInsertRun(ans, t, table, columns, 1500).err.None? <==> ans(t, Insert(table, columns, 1000)).Ok?
  {
    var x := Answer(ans, t, Insert(table, columns, BatchRows));
    if x.err.None? {
      assert InsertChunks(ans, x.trace, table, columns, 0) == Exec(None, x.trace);
    }
  }

  /** Every step makes at least one repository call; a failing step's last call failed. */
  lemma StepRunCalls(ans: Oracle, t: seq<Call>, step: Step)
    ensures var x := StepRun(ans, t, step);
      t < x.trace && (x.err.Some? ==> ans(x.trace[..|x.trace| - 1], x.trace[|x.trace| - 1]).Fail?)
  {
    match step
    case DoAwaitReady =>
      AwaitReadyCalls(ans, t);
    case DoBulkInsert(table, columns, n) =>
      BulkInsertCalls(ans, t, table, columns, n);
    case DoOpen => OneCallCalls(ans, t, Open);
    case DoCreateDatabase(name) => OneCallCalls(ans, t, CreateDatabase(name));
    case DoSwitchDatabase(name) => OneCallCalls(ans, t, SwitchDatabase(name));
    case DoDropDatabase(name) => OneCallCalls(ans, t, DropDatabase(name));
    case DoClose => OneCallCalls(ans, t, Close);
    case DoCreateTable(name, fields) => OneCallCalls(ans, t, CreateTable(name, fields));
    case DoTruncateTable(name) => OneCallCalls(ans, t, TruncateTable(name));
    case DoDropTable(name) => OneCallCalls(ans, t, DropTable(name));
    case DoInsert(table, columns, n) => OneCallCalls(ans, t, Insert(table, columns, RowCount(n)));
    case DoSelectById(table, id) => OneCallCalls(ans, t, SelectById(table, id));
    case DoSelectByConditions(table, conditions) => OneCallCalls(ans, t, SelectByConditions(table, conditions));
  }

  lemma OneCallCalls(ans: Oracle, t: seq<Call>, c: Call)
    ensures var x := Answer(ans, t, c);
      t < x.trace && (x.err.Some? ==> ans(x.trace[..|x.trace| - 1], x.trace[|x.trace| - 1]).Fail?)
  {
    var x := Answer(ans, t, c);
    assert x.trace[..|x.trace| - 1] == t;
  }

  lemma AwaitReadyCalls(ans: Oracle, t: seq<Call>)
    ensures var x := PingLoop(ans, t, PingAttempts);
      t < x.trace && (x.err.Some? ==> ans(x.trace[..|x.trace| - 1], x.trace[|x.trace| - 1]).Fail?)
  {
    var x := PingLoop(ans, t, PingAttempts);
    ReadinessLoop(ans, t);
    PingLoopOutcome(ans, t, PingAttempts);
    if x.err.Some? {
      assert x.trace[..|x.trace| - 1] == t + Pings(PingAttempts - 1);
      assert x.trace[|x.trace| - 1] == Ping;
    }
  }

  lemma BulkInsertCalls(ans: Oracle, t: seq<Call>, table: string, columns: seq<string>, n: int)
    ensures var x := BulkInsertRun(ans, t, table, columns, n);
      t < x.trace && (x.err.Some? ==> ans(x.trace[..|x.trace| - 1], x.trace[|x.trace| - 1]).Fail?)
  {
    var x := BulkInsertRun(ans, t, table, columns, n);
    if n > BatchRows {
      InsertChunksOutcome(ans, t, table, columns, n / BatchRows);
      if x.err.Some? {
        var k :| 1 <= k <= n / BatchRows && x.trace == t + Batches(table, columns, k)
                 && ans(t + Batches(table, columns, k - 1), BatchInsert(table, columns)).Fail?;
        assert x.trace[..|x.trace| - 1] == t + Batches(table, columns, k - 1);
      } else {
        assert x.trace == t + Batches(table, columns, n / BatchRows);
      }
    } else {
      assert x.trace[..|x.trace| - 1] == t;
    }
  }
}
