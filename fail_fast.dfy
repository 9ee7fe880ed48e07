/**
 * Fail-fast.  A sweep iteration, the sweep and the table benchmark each
 * issue a fixed schedule of repository calls and stop at the first call the
 * backend refuses; nothing after it runs.  `RunCalls` states that behaviour
 * once, for any schedule.  A schedule is split into steps, one per timed
 * step, and `Stage` adds what the accumulator then shows: the durations of
 * the steps before the one that made the refused call, and a single error
 * naming that step.  The lemmas prove each of the three runs a `Stage` of
 * its steps.
 */
module FailFastProperties {
  import opened Domain
  import opened Repository
  import opened Schedule
  import opened SweepProperties

  /** Issues the calls `cs` in order after history `t`, stopping at the first refused one. */
  function RunCalls(ans: Oracle, t: seq<Call>, cs: seq<Call>): Exec
    decreases |cs|
  {
    if cs == [] then Exec(None, t)
    else
      var x := Answer(ans, t, cs[0]);
      if x.err.Some? then x else RunCalls(ans, x.trace, cs[1..])
  }

  /** Every call of `cs`, issued in order after `t`, is accepted. */
  ghost predicate Accepted(ans: Oracle, t: seq<Call>, cs: seq<Call>) {
    forall i :: 0 <= i < |cs| ==> ans(t + cs[..i], cs[i]).Ok?
  }

  lemma ShiftPrefix(t: seq<Call>, cs: seq<Call>, i: nat)
    requires i < |cs|
    ensures t + [cs[0]] + cs[1..][..i] == t + cs[..i + 1]
  {
    assert cs[..i + 1] == [cs[0]] + cs[1..][..i];
  }

  lemma AcceptedCons(ans: Oracle, t: seq<Call>, cs: seq<Call>)
    requires cs != []
    ensures Accepted(ans, t, cs) <==> ans(t, cs[0]).Ok? && Accepted(ans, t + [cs[0]], cs[1..])
  {
    assert t + cs[..0] == t;
    if ans(t, cs[0]).Ok? && Accepted(ans, t + [cs[0]], cs[1..]) {
      forall i | 1 <= i < |cs|
        ensures ans(t + cs[..i], cs[i]).Ok?
      {
        ShiftPrefix(t, cs, i - 1);
        assert cs[1..][i - 1] == cs[i];
      }
    }
    if Accepted(ans, t, cs) {
      forall i | 0 <= i < |cs| - 1
        ensures ans(t + [cs[0]] + cs[1..][..i], cs[1..][i]).Ok?
      {
        ShiftPrefix(t, cs, i);
        assert cs[1..][i] == cs[i + 1];
      }
    }
  }

  /**
   * `x` issued the calls of `cs` up to and including the `j`-th, every
   * earlier one accepted, and failed with the message refusing the `j`-th.
   */
  ghost predicate RefusedAt(ans: Oracle, t: seq<Call>, cs: seq<Call>, j: int, x: Exec) {
    && 0 <= j < |cs| && x.trace == t + cs[..j + 1]
    && (forall i :: 0 <= i < j ==> ans(t + cs[..i], cs[i]).Ok?)
    && ans(t + cs[..j], cs[j]).Fail?
    && x.err == Some(RepositoryError(ans(t + cs[..j], cs[j]).message))
  }

  /**
   * What `RunCalls` does: it succeeds exactly when every call is accepted,
   * and then issues them all; otherwise it issues the calls up to and
   * including the first refused one and returns that call's message.
   */
  lemma {:induction false} RunCallsOutcome(ans: Oracle, t: seq<Call>, cs: seq<Call>)
    ensures RunCalls(ans, t, cs).err.None? <==> Accepted(ans, t, cs)
    ensures RunCalls(ans, t, cs).err.None? ==> RunCalls(ans, t, cs).trace == t + cs
    ensures RunCalls(ans, t, cs).err.Some? ==> exists j :: RefusedAt(ans, t, cs, j, RunCalls(ans, t, cs))
    decreases |cs|
  {
    if cs != [] {
      AcceptedCons(ans, t, cs);
      var c, rest := cs[0], cs[1..];
      assert t + cs[..0] == t && cs[..1] == [c];
      if ans(t, c).Ok? {
        RunCallsOutcome(ans, t + [c], rest);
        var x := RunCalls(ans, t + [c], rest);
        if x.err.None? {
          assert cs == [c] + rest;
        } else {
          var j :| RefusedAt(ans, t + [c], rest, j, x);
          ShiftPrefix(t, cs, j + 1);
          ShiftPrefix(t, cs, j);
          forall i | 0 <= i < j + 1
            ensures ans(t + cs[..i], cs[i]).Ok?
          {
            if i > 0 {
              ShiftPrefix(t, cs, i - 1);
            }
          }
          assert RefusedAt(ans, t, cs, j + 1, RunCalls(ans, t, cs));
        }
      } else {
        assert RefusedAt(ans, t, cs, 0, RunCalls(ans, t, cs));
      }
    }
  }

  /** Issuing `a + b` is issuing `a`, then `b` unless `a` was refused somewhere. */
  lemma {:induction false} RunCallsAppend(ans: Oracle, t: seq<Call>, a: seq<Call>, b: seq<Call>)
    ensures RunCalls(ans, t, a + b)
            == if RunCalls(ans, t, a).err.Some? then RunCalls(ans, t, a) else RunCalls(ans, RunCalls(ans, t, a).trace, b)
    decreases |a|
  {
    if a == [] {
      assert a + b == b;
    } else {
      assert (a + b)[0] == a[0];
      assert (a + b)[1..] == a[1..] + b;
      if ans(t, a[0]).Ok? {
        RunCallsAppend(ans, t + [a[0]], a[1..], b);
      }
    }
  }

  lemma RunCallsOne(ans: Oracle, t: seq<Call>, c: Call)
    ensures RunCalls(ans, t, [c]) == Answer(ans, t, c)
  {
    assert [c][1..] == [];
  }

  /** The chunk loop issues its batches fail-fast. */
  lemma {:induction false} InsertChunksAsCalls(ans: Oracle, t: seq<Call>, table: string, columns: seq<string>, m: nat)
    ensures InsertChunks(ans, t, table, columns, m) == RunCalls(ans, t, Batches(table, columns, m))
    decreases m
  {
    if m > 0 {
      var c := Insert(table, columns, BatchRows);
      assert Batches(table, columns, m)[1..] == Batches(table, columns, m - 1);
      if ans(t, c).Ok? {
        InsertChunksAsCalls(ans, t + [c], table, columns, m - 1);
      }
    }
  }

  /** The bulk insert issues `BulkCalls` fail-fast. */
  lemma BulkAsCalls(ans: Oracle, t: seq<Call>, table: string, columns: seq<string>, n: int)
    ensures BulkInsertRun(ans, t, table, columns, n) == RunCalls(ans, t, BulkCalls(table, columns, n))
  {
    if n > BatchRows {
      InsertChunksAsCalls(ans, t, table, columns, n / BatchRows);
    } else {
      RunCallsOne(ans, t, Insert(table, columns, RowCount(n)));
    }
  }

  // ---------------------------------------------------------------------
  // Call schedules split into steps.
  // ---------------------------------------------------------------------

  /** The calls of consecutive steps, one after the other. */
  function Flatten(steps: seq<seq<Call>>): seq<Call> {
    if steps == [] then [] else steps[0] + Flatten(steps[1..])
  }

  lemma {:induction false} FlattenAppend(a: seq<seq<Call>>, b: seq<seq<Call>>)
    ensures Flatten(a + b) == Flatten(a) + Flatten(b)
    decreases |a|
  {
    if a == [] {
      assert a + b == b;
    } else {
      assert (a + b)[0] == a[0];
      assert (a + b)[1..] == a[1..] + b;
      FlattenAppend(a[1..], b);
    }
  }

  lemma FlattenOne(cs: seq<Call>)
    ensures Flatten([cs]) == cs
  {
    assert [cs][1..] == [];
  }

  /** The inserts into the filled table, one call per step. */
  function FullTableSteps(table: string, columns: seq<string>, size: int): seq<seq<Call>>
    decreases size
  {
    if size < 1 then [] else [[Insert(table, columns, RowCount(size))]] + FullTableSteps(table, columns, size / 10)
  }

  function FilledSteps(table: string, columns: seq<string>, n: int): seq<seq<Call>> {
    if n >= 1000 then FullTableSteps(table, columns, 1000) else []
  }

  /** One iteration's calls, step by step: the bulk insert is one step of one or more calls. */
  function IterationSteps(table: string, columns: seq<string>, conditions: string, n: int): seq<seq<Call>> {
    [BulkCalls(table, columns, n)] + [[SelectById(table, Quot(n, 2))]] + [[SelectByConditions(table, conditions)]]
    + FilledSteps(table, columns, n) + [[TruncateTable(table)]]
  }

  function SweepSteps(table: string, columns: seq<string>, conditions: string, sizes: seq<int>): seq<seq<Call>> {
    if sizes == [] then []
    else IterationSteps(table, columns, conditions, sizes[0]) + SweepSteps(table, columns, conditions, sizes[1..])
  }

  function TableSteps(sizes: seq<int>): seq<seq<Call>> {
    [[CreateTable(TableName, TableFields)]] + [[TruncateTable(TableName)]]
    + SweepSteps(TableName, TableColumns, SelectConditions, sizes) + [[DropTable(TableName)]]
  }

  lemma {:induction false} FullTableStepsFlatten(table: string, columns: seq<string>, size: int)
    ensures Flatten(FullTableSteps(table, columns, size)) == FullTableCalls(table, columns, size)
    decreases size
  {
    if size >= 1 {
      var s := FullTableSteps(table, columns, size);
      assert s[0] == [Insert(table, columns, RowCount(size))] && s[1..] == FullTableSteps(table, columns, size / 10);
      FullTableStepsFlatten(table, columns, size / 10);
    }
  }

  /** The steps of an iteration issue exactly `IterationCalls`. */
  lemma IterationStepsFlatten(table: string, columns: seq<string>, conditions: string, n: int)
    ensures Flatten(IterationSteps(table, columns, conditions, n)) == IterationCalls(table, columns, conditions, n)
  {
    var a, b, c := [BulkCalls(table, columns, n)], [[SelectById(table, Quot(n, 2))]],
                   [[SelectByConditions(table, conditions)]];
    var f, d := FilledSteps(table, columns, n), [[TruncateTable(table)]];
    FlattenOne(BulkCalls(table, columns, n));
    FlattenOne([SelectById(table, Quot(n, 2))]);
    FlattenOne([SelectByConditions(table, conditions)]);
    FlattenOne([TruncateTable(table)]);
    FlattenAppend(a, b);
    FlattenAppend(a + b, c);
    FlattenAppend(a + b + c, f);
    FlattenAppend(a + b + c + f, d);
    if n >= 1000 {
      FullTableStepsFlatten(table, columns, 1000);
    }
  }

  lemma {:induction false} SweepStepsFlatten(table: string, columns: seq<string>, conditions: string, sizes: seq<int>)
    ensures Flatten(SweepSteps(table, columns, conditions, sizes)) == SweepCalls(table, columns, conditions, sizes)
    decreases |sizes|
  {
    if sizes != [] {
      IterationStepsFlatten(table, columns, conditions, sizes[0]);
      SweepStepsFlatten(table, columns, conditions, sizes[1..]);
      FlattenAppend(IterationSteps(table, columns, conditions, sizes[0]), SweepSteps(table, columns, conditions, sizes[1..]));
    }
  }

  /** The steps of the table benchmark issue exactly `TableCalls`. */
  lemma TableStepsFlatten(sizes: seq<int>)
    ensures Flatten(TableSteps(sizes)) == TableCalls(sizes)
  {
    var a, b := [[CreateTable(TableName, TableFields)]], [[TruncateTable(TableName)]];
    var w, d := SweepSteps(TableName, TableColumns, SelectConditions, sizes), [[DropTable(TableName)]];
    FlattenOne([CreateTable(TableName, TableFields)]);
    FlattenOne([TruncateTable(TableName)]);
    FlattenOne([DropTable(TableName)]);
    FlattenAppend(a, b);
    FlattenAppend(a + b, w);
    FlattenAppend(a + b + w, d);
    SweepStepsFlatten(TableName, TableColumns, SelectConditions, sizes);
  }

  // ---------------------------------------------------------------------
  // Stages: fail-fast runs of steps, with what they record.
  // ---------------------------------------------------------------------

  /**
   * What `p`, run after `log` for the steps `steps` named `labels`,
   * recorded: when it succeeded, the duration of every step and no error;
   * when it failed at step `k`, the durations of the steps before `k` and
   * one error, labelled with step `k`'s name.
   */
  ghost predicate Recorded(log: Log, p: Progress, steps: seq<seq<Call>>, labels: seq<string>) {
    && (p.err.None? ==>
          |steps| == |labels| && p.log.metrics == log.metrics + Durations(labels) && p.log.errors == log.errors)
    && (p.err.Some? ==> exists k :: StoppedAtStep(log, p, steps, labels, k))
  }

  /**
   * `p` failed at step `k`: its last call is one of step `k`'s calls, it
   * recorded the durations of the steps before `k` and one error naming
   * step `k`.
   */
  ghost predicate StoppedAtStep(log: Log, p: Progress, steps: seq<seq<Call>>, labels: seq<string>, k: int)
    requires p.err.Some?
  {
    && 0 <= k < |labels| && k < |steps|
    && |Flatten(steps[..k])| < |p.log.trace| - |log.trace| <= |Flatten(steps[..k + 1])|
    && p.log.metrics == log.metrics + Durations(labels[..k])
    && p.log.errors == log.errors + [labels[k] + ". " + Message(p.err.value)]
  }

  /** `p`, run after `log`, is the fail-fast run of the steps `steps`, recorded under the step names `labels`. */
  ghost predicate Stage(ans: Oracle, log: Log, p: Progress, steps: seq<seq<Call>>, labels: seq<string>) {
    && p.err == RunCalls(ans, log.trace, Flatten(steps)).err
    && p.log.trace == RunCalls(ans, log.trace, Flatten(steps)).trace
    && Recorded(log, p, steps, labels)
  }

  lemma StageEmpty(ans: Oracle, log: Log)
    ensures Stage(ans, log, Progress(None, log), [], [])
  {
    assert log.metrics + Durations([]) == log.metrics;
  }

  /** A timed step whose operation issues `cs` fail-fast is a stage of one step. */
  lemma TimedStage(ans: Oracle, log: Log, step: Step, name: string, cs: seq<Call>)
    requires StepRun(ans, log.trace, step) == RunCalls(ans, log.trace, cs)
    ensures Stage(ans, log, TimedStep(ans, log, step, name), [cs], [name])
  {
    var p := TimedStep(ans, log, step, name);
    FlattenOne(cs);
    assert Durations([name]) == [name + "Duration"];
    if p.err.Some? {
      RunCallsOutcome(ans, log.trace, cs);
      var j :| RefusedAt(ans, log.trace, cs, j, RunCalls(ans, log.trace, cs));
      assert [cs][..0] == [] && [cs][..1] == [cs];
      assert [name][..0] == [] && log.metrics + Durations([]) == log.metrics;
      assert StoppedAtStep(log, p, [cs], [name], 0);
    }
  }

  lemma RecordedFirstFails(l0: Log, p1: Progress, sa: seq<seq<Call>>, la: seq<string>, sb: seq<seq<Call>>,
                           lb: seq<string>)
    requires p1.err.Some? && Recorded(l0, p1, sa, la)
    ensures Recorded(l0, p1, sa + sb, la + lb)
  {
    var k :| StoppedAtStep(l0, p1, sa, la, k);
    assert (la + lb)[..k] == la[..k] && (la + lb)[k] == la[k];
    assert (sa + sb)[..k] == sa[..k] && (sa + sb)[..k + 1] == sa[..k + 1];
    assert StoppedAtStep(l0, p1, sa + sb, la + lb, k);
  }

  lemma RecordedSecondFails(l0: Log, p1: Progress, p2: Progress, sa: seq<seq<Call>>, la: seq<string>,
                            sb: seq<seq<Call>>, lb: seq<string>)
    requires p1.err.None? && p2.err.Some? && Recorded(l0, p1, sa, la) && Recorded(p1.log, p2, sb, lb)
    requires p1.log.trace == l0.trace + Flatten(sa)
    ensures Recorded(l0, p2, sa + sb, la + lb)
  {
    var k :| StoppedAtStep(p1.log, p2, sb, lb, k);
    StoppedShift(l0, p1.log, p2, sa, la, sb, lb, k);
  }

  /** Failing at step `k` after `l1` is failing at step `|la| + k` after `l0`, when `l1` is `l0` plus the steps `sa`. */
  lemma StoppedShift(l0: Log, l1: Log, p2: Progress, sa: seq<seq<Call>>, la: seq<string>, sb: seq<seq<Call>>,
                     lb: seq<string>, k: int)
    requires p2.err.Some? && StoppedAtStep(l1, p2, sb, lb, k)
    requires |sa| == |la| && l1.trace == l0.trace + Flatten(sa)
    requires l1.metrics == l0.metrics + Durations(la) && l1.errors == l0.errors
    ensures StoppedAtStep(l0, p2, sa + sb, la + lb, |la| + k)
  {
    LabelsShift(l0.metrics, la, lb, k);
    StepsShift(sa, sb, k);
  }

  /** Step `k` of `lb` is step `|la| + k` of `la + lb`. */
  lemma LabelsShift(m: seq<string>, la: seq<string>, lb: seq<string>, k: int)
    requires 0 <= k < |lb|
    ensures m + Durations((la + lb)[..|la| + k]) == m + Durations(la) + Durations(lb[..k])
    ensures (la + lb)[|la| + k] == lb[k]
  {
    assert (la + lb)[..|la| + k] == la + lb[..k];
    DurationsAppend(la, lb[..k]);
  }

  /** The calls before and up to step `k` of `sb`, counted within `sa + sb`. */
  lemma StepsShift(sa: seq<seq<Call>>, sb: seq<seq<Call>>, k: int)
    requires 0 <= k < |sb|
    ensures |Flatten((sa + sb)[..|sa| + k])| == |Flatten(sa)| + |Flatten(sb[..k])|
    ensures |Flatten((sa + sb)[..|sa| + k + 1])| == |Flatten(sa)| + |Flatten(sb[..k + 1])|
  {
    assert (sa + sb)[..|sa| + k] == sa + sb[..k] && (sa + sb)[..|sa| + k + 1] == sa + sb[..k + 1];
    FlattenAppend(sa, sb[..k]);
    FlattenAppend(sa, sb[..k + 1]);
  }

  /** What two parts record one after the other, the second only when the first succeeded. */
  lemma RecordedThen(l0: Log, p1: Progress, p2: Progress, sa: seq<seq<Call>>, la: seq<string>, sb: seq<seq<Call>>,
                     lb: seq<string>)
    requires Recorded(l0, p1, sa, la)
    requires p1.err.None? ==> Recorded(p1.log, p2, sb, lb) && p1.log.trace == l0.trace + Flatten(sa)
    ensures Recorded(l0, if p1.err.Some? then p1 else p2, sa + sb, la + lb)
  {
    if p1.err.Some? {
      RecordedFirstFails(l0, p1, sa, la, sb, lb);
    } else if p2.err.Some? {
      RecordedSecondFails(l0, p1, p2, sa, la, sb, lb);
    } else {
      DurationsAppend(la, lb);
    }
  }

  /** Two stages one after the other, the second only when the first succeeded, are one stage. */
  lemma StageThen(ans: Oracle, l0: Log, p1: Progress, p2: Progress, sa: seq<seq<Call>>, la: seq<string>,
                  sb: seq<seq<Call>>, lb: seq<string>)
    requires Stage(ans, l0, p1, sa, la)
    requires p1.err.None? ==> Stage(ans, p1.log, p2, sb, lb)
    ensures Stage(ans, l0, if p1.err.Some? then p1 else p2, sa + sb, la + lb)
  {
    FlattenAppend(sa, sb);
    RunCallsAppend(ans, l0.trace, Flatten(sa), Flatten(sb));
    RunCallsOutcome(ans, l0.trace, Flatten(sa));
    RecordedThen(l0, p1, p2, sa, la, sb, lb);
  }

  /**
   * The first refused call of a failed stage is call `j` of its schedule,
   * which belongs to step `k`, and the one error recorded names step `k`.
   */
  ghost predicate RefusedInStep(ans: Oracle, log: Log, p: Progress, steps: seq<seq<Call>>, labels: seq<string>,
                                j: int, k: int) {
    && p.err.Some?
    && RefusedAt(ans, log.trace, Flatten(steps), j, Exec(p.err, p.log.trace))
    && StoppedAtStep(log, p, steps, labels, k)
    && |Flatten(steps[..k])| <= j < |Flatten(steps[..k + 1])|
  }

  /**
   * What a stage shows: when every call is accepted, all of them issued and
   * every step's duration recorded; otherwise the calls up to the first
   * refused one, that call's message as the error, the durations of the
   * steps before the one holding that call, and one error naming that step.
   */
  lemma StageOutcome(ans: Oracle, log: Log, p: Progress, steps: seq<seq<Call>>, labels: seq<string>)
    requires Stage(ans, log, p, steps, labels)
    ensures Accepted(ans, log.trace, Flatten(steps)) ==>
              p.err.None? && p.log == Log(log.trace + Flatten(steps), log.metrics + Durations(labels), log.errors)
    ensures !Accepted(ans, log.trace, Flatten(steps)) ==>
              p.err.Some? && exists j, k :: RefusedInStep(ans, log, p, steps, labels, j, k)
  {
    RunCallsOutcome(ans, log.trace, Flatten(steps));
    assert Exec(p.err, p.log.trace) == RunCalls(ans, log.trace, Flatten(steps));
    if p.err.Some? {
      var j :| RefusedAt(ans, log.trace, Flatten(steps), j, Exec(p.err, p.log.trace));
      var k :| StoppedAtStep(log, p, steps, labels, k);
      assert RefusedInStep(ans, log, p, steps, labels, j, k);
    }
  }

  // ---------------------------------------------------------------------
  // The iteration, the sweep and the table benchmark are stages.
  // ---------------------------------------------------------------------

  /** The inserts into the filled table are a stage of their steps and labels. */
  lemma {:induction false} FullTableStage(ans: Oracle, log: Log, table: string, columns: seq<string>, prefix: string,
                                          size: int)
    ensures Stage(ans, log, FullTableInserts(ans, log, table, columns, prefix, size), FullTableSteps(table, columns, size),
                  FullTableLabels(prefix, size))
    decreases size
  {
    if size < 1 {
      StageEmpty(ans, log);
    } else {
      var name := SizePrefix(size) + "Insert" + prefix + "Table";
      var c := Insert(table, columns, RowCount(size));
      RunCallsOne(ans, log.trace, c);
      TimedStage(ans, log, DoInsert(table, columns, size), name, [c]);
      var p := TimedStep(ans, log, DoInsert(table, columns, size), name);
      if p.err.None? {
        FullTableStage(ans, p.log, table, columns, prefix, size / 10);
      }
      StageThen(ans, log, p, FullTableInserts(ans, p.log, table, columns, prefix, size / 10), [[c]], [name],
                FullTableSteps(table, columns, size / 10), FullTableLabels(prefix, size / 10));
    }
  }

  /** The inserts into the filled table, present from a thousand rows on, are a stage. */
  lemma FilledFailFast(ans: Oracle, p3: Progress, table: string, columns: seq<string>, prefix: string, n: int)
    requires p3.err.None?
    ensures Stage(ans, p3.log, if n >= 1000 then FullTableInserts(ans, p3.log, table, columns, prefix, 1000) else p3,
                  FilledSteps(table, columns, n), FilledInsertLabels(prefix, n))
  {
    if n >= 1000 {
      FullTableStage(ans, p3.log, table, columns, prefix, 1000);
    } else {
      StageEmpty(ans, p3.log);
    }
  }

  /** The first three steps of an iteration: bulk insert, select by id, select by conditions. */
  lemma IterationHead(ans: Oracle, log: Log, table: string, columns: seq<string>, conditions: string, n: int)
    returns (p1: Progress, p2: Progress, p3: Progress)
    ensures p1 == TimedStep(ans, log, DoBulkInsert(table, columns, n), SizePrefix(n) + "InsertEmptyTable")
    ensures p2 == TimedStep(ans, p1.log, DoSelectById(table, Quot(n, 2)), "selectById" + SizePrefix(n) + "Table")
    ensures p3 == TimedStep(ans, p2.log, DoSelectByConditions(table, conditions),
                            "selectByConditions" + SizePrefix(n) + "Table")
    ensures Stage(ans, log, if p1.err.Some? then p1 else if p2.err.Some? then p2 else p3,
                  [BulkCalls(table, columns, n)] + [[SelectById(table, Quot(n, 2))]]
                  + [[SelectByConditions(table, conditions)]],
                  [SizePrefix(n) + "InsertEmptyTable"] + ["selectById" + SizePrefix(n) + "Table"]
                  + ["selectByConditions" + SizePrefix(n) + "Table"])
  {
    var prefix := SizePrefix(n);
    var n1, n2, n3 := prefix + "InsertEmptyTable", "selectById" + prefix + "Table", "selectByConditions" + prefix + "Table";
    var c2, c3 := SelectById(table, Quot(n, 2)), SelectByConditions(table, conditions);
    p1 := TimedStep(ans, log, DoBulkInsert(table, columns, n), n1);
    BulkAsCalls(ans, log.trace, table, columns, n);
    TimedStage(ans, log, DoBulkInsert(table, columns, n), n1, BulkCalls(table, columns, n));
    p2 := TimedStep(ans, p1.log, DoSelectById(table, Quot(n, 2)), n2);
    RunCallsOne(ans, p1.log.trace, c2);
    TimedStage(ans, p1.log, DoSelectById(table, Quot(n, 2)), n2, [c2]);
    StageThen(ans, log, p1, p2, [BulkCalls(table, columns, n)], [n1], [[c2]], [n2]);
    var q2 := if p1.err.Some? then p1 else p2;
    p3 := TimedStep(ans, p2.log, DoSelectByConditions(table, conditions), n3);
    RunCallsOne(ans, p2.log.trace, c3);
    TimedStage(ans, p2.log, DoSelectByConditions(table, conditions), n3, [c3]);
    StageThen(ans, log, q2, p3, [BulkCalls(table, columns, n)] + [[c2]], [n1] + [n2], [[c3]], [n3]);
  }

  /**
   * An iteration is the fail-fast run of its steps: it stops at the first
   * refused call, records the durations of the steps before the one that
   * made it and one error naming that step, and runs nothing after it.
   */
  lemma InsertSelectFailFast(ans: Oracle, log: Log, table: string, columns: seq<string>, conditions: string, n: int)
    ensures Stage(ans, log, InsertSelectRun(ans, log, table, columns, conditions, n),
                  IterationSteps(table, columns, conditions, n), IterationLabels(n))
  {
    var prefix := SizePrefix(n);
    var p1, p2, p3 := IterationHead(ans, log, table, columns, conditions, n);
    var q3 := if p1.err.Some? then p1 else if p2.err.Some? then p2 else p3;
    var head := [BulkCalls(table, columns, n)] + [[SelectById(table, Quot(n, 2))]]
                + [[SelectByConditions(table, conditions)]];
    var headLabels := [prefix + "InsertEmptyTable"] + ["selectById" + prefix + "Table"]
                      + ["selectByConditions" + prefix + "Table"];
    var p4 := if n >= 1000 then FullTableInserts(ans, p3.log, table, columns, prefix, 1000) else p3;
    if q3.err.None? {
      FilledFailFast(ans, p3, table, columns, prefix, n);
    }
    StageThen(ans, log, q3, p4, head, headLabels, FilledSteps(table, columns, n), FilledInsertLabels(prefix, n));
    var q4 := if q3.err.Some? then q3 else p4;
    var n5 := "truncate" + prefix + "Table";
    var p5 := TimedStep(ans, p4.log, DoTruncateTable(table), n5);
    RunCallsOne(ans, p4.log.trace, TruncateTable(table));
    TimedStage(ans, p4.log, DoTruncateTable(table), n5, [TruncateTable(table)]);
    StageThen(ans, log, q4, p5, head + FilledSteps(table, columns, n), headLabels + FilledInsertLabels(prefix, n),
              [[TruncateTable(table)]], [n5]);
  }

  lemma SweepStepsUnfold(n: int)
    requires 1 <= n <= LargestDataCount
    ensures SweepLabels(SweepSizes(n)) == IterationLabels(n) + SweepLabels(SweepSizes(n * 10))
    ensures SweepSteps(TableName, TableColumns, SelectConditions, SweepSizes(n))
            == IterationSteps(TableName, TableColumns, SelectConditions, n)
               + SweepSteps(TableName, TableColumns, SelectConditions, SweepSizes(n * 10))
  {
    assert SweepSizes(n) == [n] + SweepSizes(n * 10);
    assert SweepSizes(n)[1..] == SweepSizes(n * 10);
  }

  /**
   * The sweep from `n` is the fail-fast run of the steps of all its
   * iterations: the first refused call ends the sweep, and no later
   * iteration runs.
   */
  lemma {:induction false} SweepFailFast(ans: Oracle, log: Log, n: int)
    requires n >= 1
    ensures Stage(ans, log, SweepRun(ans, log, n), SweepSteps(TableName, TableColumns, SelectConditions, SweepSizes(n)),
                  SweepLabels(SweepSizes(n)))
    decreases LargestDataCount - n
  {
    if n > LargestDataCount {
      StageEmpty(ans, log);
    } else {
      var p := InsertSelectRun(ans, log, TableName, TableColumns, SelectConditions, n);
      InsertSelectFailFast(ans, log, TableName, TableColumns, SelectConditions, n);
      if p.err.None? {
        SweepFailFast(ans, p.log, n * 10);
      }
      StageThen(ans, log, p, SweepRun(ans, p.log, n * 10), IterationSteps(TableName, TableColumns, SelectConditions, n),
                IterationLabels(n), SweepSteps(TableName, TableColumns, SelectConditions, SweepSizes(n * 10)),
                SweepLabels(SweepSizes(n * 10)));
      SweepStepsUnfold(n);
    }
  }

  /** Creating the benchmark table is a one-call stage. */
  lemma CreateFailFast(ans: Oracle, log: Log)
    ensures Stage(ans, log, TimedStep(ans, log, DoCreateTable(TableName, TableFields), "createTable"),
                  [[CreateTable(TableName, TableFields)]], ["createTable"])
  {
    RunCallsOne(ans, log.trace, CreateTable(TableName, TableFields));
    TimedStage(ans, log, DoCreateTable(TableName, TableFields), "createTable", [CreateTable(TableName, TableFields)]);
  }

  /** Emptying the freshly created table is a one-call stage. */
  lemma TruncateFailFast(ans: Oracle, log: Log)
    ensures Stage(ans, log, TimedStep(ans, log, DoTruncateTable(TableName), "truncateEmptyTable"),
                  [[TruncateTable(TableName)]], ["truncateEmptyTable"])
  {
    RunCallsOne(ans, log.trace, TruncateTable(TableName));
    TimedStage(ans, log, DoTruncateTable(TableName), "truncateEmptyTable", [TruncateTable(TableName)]);
  }

  /** Dropping the benchmark table is a one-call stage. */
  lemma DropFailFast(ans: Oracle, log: Log)
    ensures Stage(ans, log, TimedStep(ans, log, DoDropTable(TableName), "dropTable"), [[DropTable(TableName)]],
                  ["dropTable"])
  {
    RunCallsOne(ans, log.trace, DropTable(TableName));
    TimedStage(ans, log, DoDropTable(TableName), "dropTable", [DropTable(TableName)]);
  }

  /** The first two steps of the table benchmark: create the table, then empty it. */
  lemma TableHeadFailFast(ans: Oracle, log: Log) returns (p1: Progress, p2: Progress)
    ensures p1 == TimedStep(ans, log, DoCreateTable(TableName, TableFields), "createTable")
    ensures p2 == TimedStep(ans, p1.log, DoTruncateTable(TableName), "truncateEmptyTable")
    ensures Stage(ans, log, if p1.err.Some? then p1 else p2, [[CreateTable(TableName, TableFields)]]
                  + [[TruncateTable(TableName)]], ["createTable"] + ["truncateEmptyTable"])
  {
    p1 := TimedStep(ans, log, DoCreateTable(TableName, TableFields), "createTable");
    CreateFailFast(ans, log);
    p2 := TimedStep(ans, p1.log, DoTruncateTable(TableName), "truncateEmptyTable");
    TruncateFailFast(ans, p1.log);
    StageThen(ans, log, p1, p2, [[CreateTable(TableName, TableFields)]], ["createTable"], [[TruncateTable(TableName)]],
              ["truncateEmptyTable"]);
  }

  /**
   * The table benchmark is the fail-fast run of `createTable`,
   * `truncateEmptyTable`, the sweep's steps and `dropTable`: whatever fails
   * first ends it, with the durations of the steps before it and one error
   * naming it.
   */
  lemma TableRunFailFast(ans: Oracle, log: Log)
    ensures Stage(ans, log, Progress(RunCalls(ans, log.trace, TableCalls(SweepSizes(1))).err, TableRun(ans, log)),
                  TableSteps(SweepSizes(1)), TableLabels(SweepSizes(1)))
  {
    TableStepsFlatten(SweepSizes(1));
    var head := [[CreateTable(TableName, TableFields)]] + [[TruncateTable(TableName)]];
    var headLabels := ["createTable"] + ["truncateEmptyTable"];
    var sweep := SweepSteps(TableName, TableColumns, SelectConditions, SweepSizes(1));
    var p1, p2 := TableHeadFailFast(ans, log);
    var q2 := if p1.err.Some? then p1 else p2;
    var p3 := SweepRun(ans, p2.log, 1);
    SweepFailFast(ans, p2.log, 1);
    StageThen(ans, log, q2, p3, head, headLabels, sweep, SweepLabels(SweepSizes(1)));
    var q3 := if q2.err.Some? then q2 else p3;
    var p4 := TimedStep(ans, p3.log, DoDropTable(TableName), "dropTable");
    DropFailFast(ans, p3.log);
    StageThen(ans, log, q3, p4, head + sweep, headLabels + SweepLabels(SweepSizes(1)), [[DropTable(TableName)]],
              ["dropTable"]);
    var q4 := if q3.err.Some? then q3 else p4;
    assert TableRun(ans, log) == q4.log;
  }

  /**
   * The table benchmark, fail-fast: when the backend accepts all of
   * `TableCalls`, it issues them all and records every duration and no
   * error; otherwise it stops at the first refused call, having issued
   * exactly the calls before it and that one, and records one error naming
   * the step that made that call.
   */
  lemma TableRunStopsAtRefusal(ans: Oracle, log: Log)
    ensures Accepted(ans, log.trace, TableCalls(SweepSizes(1))) ==>
              TableRun(ans, log)
              == Log(log.trace + TableCalls(SweepSizes(1)), log.metrics + Durations(TableLabels(SweepSizes(1))), log.errors)
    ensures !Accepted(ans, log.trace, TableCalls(SweepSizes(1))) ==>
              exists j, k :: RefusedInStep(ans, log, Progress(RunCalls(ans, log.trace, TableCalls(SweepSizes(1))).err,
                                                              TableRun(ans, log)),
                                           TableSteps(SweepSizes(1)), TableLabels(SweepSizes(1)), j, k)
    ensures !Accepted(ans, log.trace, TableCalls(SweepSizes(1))) ==>
              |TableRun(ans, log).errors| == |log.errors| + 1
  {
    var p := Progress(RunCalls(ans, log.trace, TableCalls(SweepSizes(1))).err, TableRun(ans, log));
    TableRunFailFast(ans, log);
    TableStepsFlatten(SweepSizes(1));
    StageOutcome(ans, log, p, TableSteps(SweepSizes(1)), TableLabels(SweepSizes(1)));
  }
}
