/**
 * Properties of a whole run: backend selection, the connection steps
 * around the table benchmark, and how each failure ends the run.
 */
module RunProperties {
  import opened Domain
  import opened Repository
  import opened Schedule
  import opened StepProperties
  import opened SweepProperties

  // ---------------------------------------------------------------------
  // The parts of a session.
  // ---------------------------------------------------------------------

  /** What the table benchmark, seen from the session, may do to the log. */
  ghost predicate TableEffect(ans: Oracle, before: Log, l: Log) {
    && OnlyTableCalls(before.trace, l.trace)
    && before.metrics <= l.metrics && before.errors <= l.errors && |l.errors| <= |before.errors| + 1
    && (l.errors == before.errors ==>
          l == Log(before.trace + TableCalls(SweepSizes(1)), before.metrics + Durations(TableLabels(SweepSizes(1))), before.errors))
    && (AllOk(ans) ==> l.errors == before.errors)
  }

  lemma TableStage(ans: Oracle, log: Log)
    ensures TableEffect(ans, log, TableRun(ans, log))
  {
    TableRunCalls(ans, log);
    TableRunOutcome(ans, log);
    if AllOk(ans) {
      TableRunAllOk(ans, log);
    }
  }

  /** What the readiness wait may do to the log: some pings, and at most a metric or an error. */
  ghost predicate StartUpEffect(ans: Oracle, before: Log, p: Progress) {
    && (exists k :: 1 <= k <= PingAttempts && p.log.trace == before.trace + Pings(k))
    && before.metrics <= p.log.metrics && before.errors <= p.log.errors
    && (AllOk(ans) ==> p == Progress(None, Log(before.trace + [Ping], before.metrics + Durations(["startUp"]), before.errors)))
  }

  lemma StartUpStage(ans: Oracle, log: Log)
    ensures StartUpEffect(ans, log, TimedStep(ans, log, DoAwaitReady, "startUp"))
  {
    ReadinessLoop(ans, log.trace);
    TimedStepOneEntry(ans, log, DoAwaitReady, "startUp");
    if AllOk(ans) {
      assert Pings(1) == [Ping];
      assert Durations(["startUp"]) == ["startUp" + "Duration"];
    }
  }

  /** The log the rest of the session starts from, once the stale database drop has been issued. */
  function StaleDropped(db: string, l: Log): Log {
    Log(l.trace + [DropDatabase(db)], l.metrics, l.errors)
  }

  /** Everything after the stale drop, in parts: two steps, the table benchmark, the clean-up. */
  lemma AfterStaleDropParts(ans: Oracle, db: string, log: Log) returns (q1: Progress, q2: Progress, l3: Log)
    ensures OneCall(ans, log, CreateDatabase(db), "createDatabase", q1)
    ensures OneCall(ans, q1.log, SwitchDatabase(db), "switchDatabase", q2)
    ensures TableEffect(ans, q2.log, l3)
    ensures AfterStaleDrop(ans, db, log)
            == if q1.err.Some? then q1.log else if q2.err.Some? then q2.log else CleanUpRun(ans, db, l3)
  {
    q1 := TimedStep(ans, log, DoCreateDatabase(db), "createDatabase");
    OneCallTimed(ans, log, DoCreateDatabase(db), "createDatabase", CreateDatabase(db));
    q2 := TimedStep(ans, q1.log, DoSwitchDatabase(db), "switchDatabase");
    OneCallTimed(ans, q1.log, DoSwitchDatabase(db), "switchDatabase", SwitchDatabase(db));
    l3 := TableRun(ans, q2.log);
    TableStage(ans, q2.log);
  }

  /** The log once the switch back to the default database has been answered. */
  function SwitchedBack(l: Log): Log {
    Log(l.trace + [SwitchDatabase("")], l.metrics, l.errors)
  }

  /** The clean-up, in parts. */
  lemma CleanUpParts(ans: Oracle, db: string, l: Log) returns (q4: Progress, q5: Progress)
    ensures OneCall(ans, SwitchedBack(l), DropDatabase(db), "dropDatabase", q4)
    ensures OneCall(ans, q4.log, Close, "closeConnection", q5)
    ensures CleanUpRun(ans, db, l)
            == if ans(l.trace, SwitchDatabase("")).Fail? then
                 Log(l.trace + [SwitchDatabase("")], l.metrics, l.errors + [ans(l.trace, SwitchDatabase("")).message])
               else if q4.err.Some? then q4.log else q5.log
  {
    q4 := TimedStep(ans, SwitchedBack(l), DoDropDatabase(db), "dropDatabase");
    OneCallTimed(ans, SwitchedBack(l), DoDropDatabase(db), "dropDatabase", DropDatabase(db));
    q5 := TimedStep(ans, q4.log, DoClose, "closeConnection");
    OneCallTimed(ans, q4.log, DoClose, "closeConnection", Close);
  }

  /** A session, in parts: open, await readiness, and the rest after the stale drop. */
  lemma SessionParts(ans: Oracle, db: string, log: Log) returns (s1: Progress, s2: Progress)
    ensures OneCall(ans, log, Open, "openConnection", s1)
    ensures StartUpEffect(ans, s1.log, s2)
    ensures SessionRun(ans, db, log)
            == if s1.err.Some? then s1.log else AfterStaleDrop(ans, db, StaleDropped(db, s2.log))
  {
    s1 := TimedStep(ans, log, DoOpen, "openConnection");
    OneCallTimed(ans, log, DoOpen, "openConnection", Open);
    s2 := TimedStep(ans, s1.log, DoAwaitReady, "startUp");
    StartUpStage(ans, s1.log);
  }

  // ---------------------------------------------------------------------
  // Backend selection and the first steps.
  // ---------------------------------------------------------------------

  /**
   * A configuration error is returned before anything is recorded; once
   * the repository exists the run returns nil, whatever happens next.
   */
  lemma RunCaseSelection(tc: TestCase, ans: Oracle, db: string, log: Log)
    ensures CaseRun(tc, ans, db, log).err.None? <==> CreateDatabaseRepository(tc).Success?
    ensures CreateDatabaseRepository(tc).Failure? ==>
              CaseRun(tc, ans, db, log) == Progress(Some(CreateDatabaseRepository(tc).error), log)
    ensures tc.componentType != ComponentTypePostgres ==>
              CaseRun(tc, ans, db, log) == Progress(Some(UnknownComponentForTesting), log)
    ensures CreateDatabaseRepository(tc).Success? ==> CaseRun(tc, ans, db, log).log == SessionRun(ans, db, log)
  {
  }

  /** A connection that cannot be opened ends the session: one call, one error entry, nothing else. */
  lemma OpenFailureEndsSession(ans: Oracle, db: string, log: Log)
    requires ans(log.trace, Open).Fail?
    ensures SessionRun(ans, db, log)
            == Log(log.trace + [Open], log.metrics, log.errors + ["openConnection. " + ans(log.trace, Open).message])
  {
    var s1, s2 := SessionParts(ans, db, log);
    assert "openConnection" + ". " == "openConnection. ";
    assert s1.log == Log(log.trace + [Open], log.metrics, log.errors + ["openConnection. " + ans(log.trace, Open).message]);
  }

  /**
   * A refused database creation, or a refused switch to the new database,
   * ends the run with that call: its labelled error is the last entry and
   * no later step runs, the connection close included.
   */
  lemma AfterStaleDropStops(ans: Oracle, db: string, log: Log)
    ensures ans(log.trace, CreateDatabase(db)).Fail? ==>
              AfterStaleDrop(ans, db, log)
              == Log(log.trace + [CreateDatabase(db)], log.metrics,
                     log.errors + ["createDatabase" + ". " + ans(log.trace, CreateDatabase(db)).message])
    ensures ans(log.trace, CreateDatabase(db)).Ok? && ans(log.trace + [CreateDatabase(db)], SwitchDatabase(db)).Fail? ==>
              AfterStaleDrop(ans, db, log)
              == Log(log.trace + [CreateDatabase(db), SwitchDatabase(db)], log.metrics + Durations(["createDatabase"]),
                     log.errors + ["switchDatabase" + ". " + ans(log.trace + [CreateDatabase(db)], SwitchDatabase(db)).message])
  {
    var q1, q2, l3 := AfterStaleDropParts(ans, db, log);
    assert log.trace + [CreateDatabase(db)] + [SwitchDatabase(db)] == log.trace + [CreateDatabase(db), SwitchDatabase(db)];
  }

  /**
   * A refused switch back to the default database ends the run with its
   * message recorded as is, without a label; a refused drop of the
   * benchmark database ends it before the connection close.
   */
  lemma CleanUpStops(ans: Oracle, db: string, l: Log)
    ensures ans(l.trace, SwitchDatabase("")).Fail? ==>
              CleanUpRun(ans, db, l)
              == Log(l.trace + [SwitchDatabase("")], l.metrics, l.errors + [ans(l.trace, SwitchDatabase("")).message])
    ensures ans(l.trace, SwitchDatabase("")).Ok? && ans(l.trace + [SwitchDatabase("")], DropDatabase(db)).Fail? ==>
              CleanUpRun(ans, db, l)
              == Log(l.trace + [SwitchDatabase(""), DropDatabase(db)], l.metrics,
                     l.errors + ["dropDatabase" + ". " + ans(l.trace + [SwitchDatabase("")], DropDatabase(db)).message])
  {
    var q4, q5 := CleanUpParts(ans, db, l);
    assert l.trace + [SwitchDatabase("")] + [DropDatabase(db)] == l.trace + [SwitchDatabase(""), DropDatabase(db)];
  }

  /**
   * A failed readiness wait is not fatal: once the connection is open,
   * the stale drop and the database creation follow between one and 300
   * pings, whatever the pings are answered.
   */
  lemma StartUpNotFatal(ans: Oracle, db: string, log: Log)
    requires ans(log.trace, Open).Ok?
    ensures exists k :: 1 <= k <= PingAttempts &&
              log.trace + [Open] + Pings(k) + [DropDatabase(db), CreateDatabase(db)] <= SessionRun(ans, db, log).trace
  {
    var s1, s2 := SessionParts(ans, db, log);
    var k :| 1 <= k <= PingAttempts && s2.log.trace == s1.log.trace + Pings(k);
    var l := StaleDropped(db, s2.log);
    AfterStaleDropExtends(ans, db, l);
    assert l.trace + [CreateDatabase(db)] == log.trace + [Open] + Pings(k) + [DropDatabase(db), CreateDatabase(db)];
  }

  /** Everything after the stale drop starts with the database creation and only appends. */
  lemma AfterStaleDropExtends(ans: Oracle, db: string, log: Log)
    ensures log.trace + [CreateDatabase(db)] <= AfterStaleDrop(ans, db, log).trace
    ensures log.metrics <= AfterStaleDrop(ans, db, log).metrics && log.errors <= AfterStaleDrop(ans, db, log).errors
  {
    var q1, q2, l3 := AfterStaleDropParts(ans, db, log);
    if q1.err.None? && q2.err.None? {
      CleanUpExtends(ans, db, l3);
    }
  }

  /** The clean-up only appends to the log. */
  lemma CleanUpExtends(ans: Oracle, db: string, l: Log)
    ensures l.trace <= CleanUpRun(ans, db, l).trace
    ensures l.metrics <= CleanUpRun(ans, db, l).metrics && l.errors <= CleanUpRun(ans, db, l).errors
  {
    var q4, q5 := CleanUpParts(ans, db, l);
  }

  // ---------------------------------------------------------------------
  // How a session ends.
  // ---------------------------------------------------------------------

  /** From index `n` on, `t` holds neither a connection close nor a switch back to the default database. */
  ghost predicate QuietFrom(t: seq<Call>, n: nat) {
    forall i :: n <= i < |t| ==> t[i] != Close && t[i] != SwitchDatabase("")
  }

  /**
   * `t` ends with the connection close, issued right after a switch back
   * and a database drop that were both answered.
   */
  ghost predicate ClosedAfterCleanUp(ans: Oracle, db: string, t: seq<Call>) {
    && |t| >= 3 && t[|t| - 3..] == [SwitchDatabase(""), DropDatabase(db), Close]
    && ans(t[..|t| - 3], SwitchDatabase("")).Ok? && ans(t[..|t| - 2], DropDatabase(db)).Ok?
  }

  /**
   * From index `n` on, `t` closes the connection only as its last call and
   * only after a successful clean-up, and a failed switch back is its last call.
   */
  ghost predicate ProperEnding(ans: Oracle, db: string, t: seq<Call>, n: nat)
    requires n <= |t|
  {
    && (Close in t[n..] ==> ClosedAfterCleanUp(ans, db, t) && Close !in t[n..|t| - 1])
    && (forall i :: n <= i < |t| && t[i] == SwitchDatabase("") && ans(t[..i], t[i]).Fail? ==> i == |t| - 1)
  }

  lemma QuietEnding(ans: Oracle, db: string, t: seq<Call>, n: nat)
    requires n <= |t| && QuietFrom(t, n)
    ensures ProperEnding(ans, db, t, n)
  {
    forall j | 0 <= j < |t[n..]|
      ensures t[n..][j] != Close
    {
      assert t[n..][j] == t[n + j];
    }
  }

  lemma QuietAppend(t: seq<Call>, n: nat, cs: seq<Call>)
    requires n <= |t| && QuietFrom(t, n)
    requires forall c :: c in cs ==> c != Close && c != SwitchDatabase("")
    ensures QuietFrom(t + cs, n)
  {
    forall i | n <= i < |t + cs|
      ensures (t + cs)[i] != Close && (t + cs)[i] != SwitchDatabase("")
    {
      if i >= |t| {
        assert (t + cs)[i] == cs[i - |t|] && cs[i - |t|] in cs;
      }
    }
  }

  lemma QuietTableCalls(before: seq<Call>, after: seq<Call>, n: nat)
    requires n <= |before| && QuietFrom(before, n) && OnlyTableCalls(before, after)
    ensures QuietFrom(after, n)
  {
    forall i | n <= i < |after|
      ensures after[i] != Close && after[i] != SwitchDatabase("")
    {
      if i >= |before| {
        assert IsTableCall(after[i]);
      } else {
        assert after[i] == before[i];
      }
    }
  }

  /** The three ways the clean-up after the table benchmark can end. */
  lemma CleanUpEnding(ans: Oracle, db: string, u: seq<Call>, n: nat, t: seq<Call>)
    requires n <= |u| && QuietFrom(u, n)
    requires || (t == u + [SwitchDatabase("")] && ans(u, SwitchDatabase("")).Fail?)
             || (t == u + [SwitchDatabase(""), DropDatabase(db)] && ans(u, SwitchDatabase("")).Ok?)
             || (t == u + [SwitchDatabase(""), DropDatabase(db), Close] && ans(u, SwitchDatabase("")).Ok?
                 && ans(u + [SwitchDatabase("")], DropDatabase(db)).Ok?)
    ensures ProperEnding(ans, db, t, n)
  {
    assert t[..|u|] == u;
    assert t[|u|] == SwitchDatabase("");
    if Close in t[n..] {
      var j :| 0 <= j < |t[n..]| && t[n..][j] == Close;
      assert t[n + j] == Close;
      assert n + j == |t| - 1;
      assert t[..|t| - 3] == u;
      assert t[..|t| - 2] == u + [SwitchDatabase("")];
      assert t[|t| - 3..] == [SwitchDatabase(""), DropDatabase(db), Close];
      var before := t[n..|t| - 1];
      forall k | 0 <= k < |before|
        ensures before[k] != Close
      {
        assert before[k] == t[n + k];
        if n + k < |u| {
          assert t[n + k] == u[n + k];
        }
      }
    }
    forall i | n <= i < |t| && t[i] == SwitchDatabase("") && ans(t[..i], t[i]).Fail?
      ensures i == |t| - 1
    {
      assert i == |u|;
      assert t[..i] == u;
    }
  }

  /** The clean-up ends properly after a log that has neither closed nor switched back from `n` on. */
  lemma CleanUpRunEnding(ans: Oracle, db: string, l: Log, n: nat)
    requires n <= |l.trace| && QuietFrom(l.trace, n)
    ensures n <= |CleanUpRun(ans, db, l).trace|
    ensures ProperEnding(ans, db, CleanUpRun(ans, db, l).trace, n)
  {
    var q4, q5 := CleanUpParts(ans, db, l);
    CleanUpEnding(ans, db, l.trace, n, CleanUpRun(ans, db, l).trace);
  }

  /**
   * After the stale drop: from any index `n` before which the session has
   * neither closed nor switched back, the run ends properly.
   */
  lemma AfterStaleDropEnding(ans: Oracle, db: string, log: Log, n: nat)
    requires db != "" && n <= |log.trace| && QuietFrom(log.trace, n)
    ensures n <= |AfterStaleDrop(ans, db, log).trace|
    ensures ProperEnding(ans, db, AfterStaleDrop(ans, db, log).trace, n)
  {
    var q1, q2, l3 := AfterStaleDropParts(ans, db, log);
    var r := AfterStaleDrop(ans, db, log).trace;
    if q1.err.Some? {
      QuietAppend(log.trace, n, [CreateDatabase(db)]);
      QuietEnding(ans, db, r, n);
    } else {
      QuietAppend(log.trace, n, [CreateDatabase(db), SwitchDatabase(db)]);
      assert q2.log.trace == log.trace + [CreateDatabase(db), SwitchDatabase(db)];
      if q2.err.Some? {
        QuietEnding(ans, db, r, n);
      } else {
        QuietTableCalls(q2.log.trace, l3.trace, n);
        CleanUpRunEnding(ans, db, l3, n);
      }
    }
  }

  /** After the stale drop, a run whose last call is the switch back records the refusal as is. */
  lemma AfterStaleDropSwitchBack(ans: Oracle, db: string, log: Log)
    requires db != ""
    ensures SwitchBackRecorded(ans, AfterStaleDrop(ans, db, log))
  {
    var q1, q2, l3 := AfterStaleDropParts(ans, db, log);
    if q1.err.None? && q2.err.None? {
      CleanUpSwitchBack(ans, db, l3);
    }
  }

  /** A clean-up whose last call is the switch back records the refusal as is. */
  lemma CleanUpSwitchBack(ans: Oracle, db: string, l: Log)
    requires db != ""
    ensures SwitchBackRecorded(ans, CleanUpRun(ans, db, l))
  {
    var q4, q5 := CleanUpParts(ans, db, l);
    var r := CleanUpRun(ans, db, l);
    if ans(l.trace, SwitchDatabase("")).Fail? {
      assert r.trace[..|r.trace| - 1] == l.trace;
    }
  }

  /**
   * When the last call is the switch back, the backend
   * refused it and its message, as is, is the last error entry.
   */
  ghost predicate SwitchBackRecorded(ans: Oracle, r: Log) {
    |r.trace| > 0 && r.trace[|r.trace| - 1] == SwitchDatabase("") ==>
      && ans(r.trace[..|r.trace| - 1], SwitchDatabase("")).Fail?
      && |r.errors| >= 1 && r.errors[|r.errors| - 1] == ans(r.trace[..|r.trace| - 1], SwitchDatabase("")).message
  }

  /**
   * A whole session on a database other than the default one: it only
   * appends to the log; it closes the connection only as its last call,
   * right after a switch back and a database drop that both succeeded; a
   * refused switch back ends it, with the backend's own message as the
   * last error entry.
   */
  lemma SessionEnding(ans: Oracle, db: string, log: Log)
    requires db != ""
    ensures var r := SessionRun(ans, db, log);
      && log.trace <= r.trace && log.metrics <= r.metrics && log.errors <= r.errors
      && ProperEnding(ans, db, r.trace, |log.trace|)
      && SwitchBackRecorded(ans, r)
  {
    SessionExtends(ans, db, log);
    SessionProperEnding(ans, db, log);
    SessionSwitchBack(ans, db, log);
  }

  lemma SessionExtends(ans: Oracle, db: string, log: Log)
    ensures var r := SessionRun(ans, db, log);
      log.trace <= r.trace && log.metrics <= r.metrics && log.errors <= r.errors
  {
    var s1, s2 := SessionParts(ans, db, log);
    if s1.err.None? {
      var l := StaleDropped(db, s2.log);
      AfterStaleDropExtends(ans, db, l);
      assert log.trace <= l.trace;
    }
  }

  lemma SessionProperEnding(ans: Oracle, db: string, log: Log)
    requires db != ""
    ensures |log.trace| <= |SessionRun(ans, db, log).trace|
    ensures ProperEnding(ans, db, SessionRun(ans, db, log).trace, |log.trace|)
  {
    var s1, s2 := SessionParts(ans, db, log);
    var n := |log.trace|;
    assert QuietFrom(log.trace, n);
    if s1.err.Some? {
      QuietAppend(log.trace, n, [Open]);
      QuietEnding(ans, db, SessionRun(ans, db, log).trace, n);
    } else {
      var k :| 1 <= k <= PingAttempts && s2.log.trace == s1.log.trace + Pings(k);
      var l := StaleDropped(db, s2.log);
      assert l.trace == log.trace + ([Open] + Pings(k) + [DropDatabase(db)]);
      QuietAppend(log.trace, n, [Open] + Pings(k) + [DropDatabase(db)]);
      AfterStaleDropEnding(ans, db, l, n);
    }
  }

  lemma SessionSwitchBack(ans: Oracle, db: string, log: Log)
    requires db != ""
    ensures SwitchBackRecorded(ans, SessionRun(ans, db, log))
  {
    var s1, s2 := SessionParts(ans, db, log);
    if s1.err.None? {
      AfterStaleDropSwitchBack(ans, db, StaleDropped(db, s2.log));
    }
  }

  // ---------------------------------------------------------------------
  // Against a backend that answers every call.
  // ---------------------------------------------------------------------

  /** The calls of a whole session on database `db` when every step succeeds, for a sweep over `sizes`. */
  function SessionCalls(db: string, sizes: seq<int>): seq<Call> {
    [Open, Ping, DropDatabase(db), CreateDatabase(db), SwitchDatabase(db)]
    + TableCalls(sizes) + [SwitchDatabase(""), DropDatabase(db), Close]
  }

  /** The step names of that session; the stale drop and the switch back are not timed. */
  function SessionLabels(sizes: seq<int>): seq<string> {
    ["openConnection", "startUp", "createDatabase", "switchDatabase"] + TableLabels(sizes)
    + ["dropDatabase", "closeConnection"]
  }

  lemma SessionCallsParts(db: string, sizes: seq<int>)
    ensures SessionCalls(db, sizes)
            == [Open] + [Ping] + [DropDatabase(db)]
               + ([CreateDatabase(db)] + [SwitchDatabase(db)] + TableCalls(sizes) + ([SwitchDatabase("")] + [DropDatabase(db)])
                  + [Close])
  {
  }

  lemma SessionLabelsParts(sizes: seq<int>)
    ensures Durations(SessionLabels(sizes))
            == Durations(["openConnection"]) + Durations(["startUp"])
               + (Durations(["createDatabase"]) + Durations(["switchDatabase"]) + Durations(TableLabels(sizes))
                  + Durations(["dropDatabase"]) + Durations(["closeConnection"]))
  {
    DurationsSession("openConnection", "startUp", "createDatabase", "switchDatabase", TableLabels(sizes),
                     "dropDatabase", "closeConnection");
  }

  lemma DurationsSession(a1: string, a2: string, a3: string, a4: string, mid: seq<string>, b1: string, b2: string)
    ensures Durations([a1, a2, a3, a4] + mid + [b1, b2])
            == Durations([a1]) + Durations([a2])
               + (Durations([a3]) + Durations([a4]) + Durations(mid) + Durations([b1]) + Durations([b2]))
  {
    assert [a1, a2, a3, a4] + mid + [b1, b2] == [a1] + [a2] + ([a3] + [a4] + mid + [b1] + [b2]);
    DurationsAppend([a1], [a2]);
    DurationsAppend([a1] + [a2], [a3] + [a4] + mid + [b1] + [b2]);
    DurationsAppend4([a3], [a4], mid, [b1]);
    DurationsAppend([a3] + [a4] + mid + [b1], [b2]);
  }

  /** Against a backend that answers every call, everything after the stale drop succeeds. */
  lemma AfterStaleDropAllOk(ans: Oracle, db: string, log: Log)
    requires AllOk(ans)
    ensures AfterStaleDrop(ans, db, log)
            == Log(log.trace + ([CreateDatabase(db)] + [SwitchDatabase(db)] + TableCalls(SweepSizes(1))
                                + ([SwitchDatabase("")] + [DropDatabase(db)]) + [Close]),
                   log.metrics + (Durations(["createDatabase"]) + Durations(["switchDatabase"])
                                  + Durations(TableLabels(SweepSizes(1))) + Durations(["dropDatabase"])
                                  + Durations(["closeConnection"])),
                   log.errors)
  {
    var q1, q2, l3 := AfterStaleDropParts(ans, db, log);
    OneCallOk(ans, log, CreateDatabase(db), "createDatabase", q1);
    OneCallOk(ans, q1.log, SwitchDatabase(db), "switchDatabase", q2);
    CleanUpAllOk(ans, db, l3);
    AfterStaleDropComposed(db, log, q1.log, q2.log, l3, CleanUpRun(ans, db, l3), TableCalls(SweepSizes(1)),
                           Durations(TableLabels(SweepSizes(1))));
  }

  /** Against a backend that answers every call, the clean-up switches back, drops and closes. */
  lemma CleanUpAllOk(ans: Oracle, db: string, l: Log)
    requires AllOk(ans)
    ensures CleanUpRun(ans, db, l)
            == Log(l.trace + ([SwitchDatabase("")] + [DropDatabase(db)]) + [Close],
                   l.metrics + Durations(["dropDatabase"]) + Durations(["closeConnection"]), l.errors)
  {
    var q4, q5 := CleanUpParts(ans, db, l);
    assert ans(l.trace, SwitchDatabase("")).Ok?;
    OneCallOk(ans, SwitchedBack(l), DropDatabase(db), "dropDatabase", q4);
    OneCallOk(ans, q4.log, Close, "closeConnection", q5);
    UntimedThenTimed(l, q4.log, SwitchDatabase(""), DropDatabase(db), Durations(["dropDatabase"]));
  }

  /** The logs of a fully successful run after the stale drop, put together. */
  lemma AfterStaleDropComposed(db: string, l0: Log, l1: Log, l2: Log, l3: Log, r: Log,
                               table: seq<Call>, tableMetrics: seq<string>)
    requires l1 == Log(l0.trace + [CreateDatabase(db)], l0.metrics + Durations(["createDatabase"]), l0.errors)
    requires l2 == Log(l1.trace + [SwitchDatabase(db)], l1.metrics + Durations(["switchDatabase"]), l1.errors)
    requires l3 == Log(l2.trace + table, l2.metrics + tableMetrics, l2.errors)
    requires r == Log(l3.trace + ([SwitchDatabase("")] + [DropDatabase(db)]) + [Close],
                      l3.metrics + Durations(["dropDatabase"]) + Durations(["closeConnection"]), l3.errors)
    ensures r == Log(l0.trace + ([CreateDatabase(db)] + [SwitchDatabase(db)] + table
                                 + ([SwitchDatabase("")] + [DropDatabase(db)]) + [Close]),
                     l0.metrics + (Durations(["createDatabase"]) + Durations(["switchDatabase"]) + tableMetrics
                                   + Durations(["dropDatabase"]) + Durations(["closeConnection"])),
                     l0.errors)
  {
    var l4 := Log(l3.trace + ([SwitchDatabase("")] + [DropDatabase(db)]), l3.metrics + Durations(["dropDatabase"]), l3.errors);
    Compose4(l0, l1, l2, l3, l4, [CreateDatabase(db)], [SwitchDatabase(db)], table,
             [SwitchDatabase("")] + [DropDatabase(db)], Durations(["createDatabase"]), Durations(["switchDatabase"]),
             tableMetrics, Durations(["dropDatabase"]));
    Compose(l0, l4, r, [CreateDatabase(db)] + [SwitchDatabase(db)] + table + ([SwitchDatabase("")] + [DropDatabase(db)]),
            [Close], Durations(["createDatabase"]) + Durations(["switchDatabase"]) + tableMetrics + Durations(["dropDatabase"]),
            Durations(["closeConnection"]));
  }

  /** An untimed call `a`, then a timed call `b` with metrics `m`. */
  lemma UntimedThenTimed(l: Log, l2: Log, a: Call, b: Call, m: seq<string>)
    requires l2 == Log(l.trace + [a] + [b], l.metrics + m, l.errors)
    ensures l2 == Log(l.trace + ([a] + [b]), l.metrics + m, l.errors)
  {
  }

  /** The first steps of a session and the rest, put together. */
  lemma SessionComposed(db: string, l0: Log, l1: Log, l2: Log, r: Log, calls: seq<Call>, open: seq<string>,
                        startUp: seq<string>, names: seq<string>)
    requires l1 == Log(l0.trace + [Open], l0.metrics + open, l0.errors)
    requires l2 == Log(l1.trace + [Ping], l1.metrics + startUp, l0.errors)
    requires r == Log(l2.trace + [DropDatabase(db)] + calls, l2.metrics + names, l0.errors)
    ensures r == Log(l0.trace + ([Open] + [Ping] + [DropDatabase(db)] + calls), l0.metrics + (open + startUp + names), l0.errors)
  {
  }

  /**
   * Against a backend that answers every call, a session makes exactly the
   * calls of the full schedule and records every step's duration metric,
   * in order, and no error.
   */
  lemma SessionAllOk(ans: Oracle, db: string, log: Log)
    requires AllOk(ans)
    ensures SessionRun(ans, db, log)
            == Log(log.trace + SessionCalls(db, SweepSizes(1)), log.metrics + Durations(SessionLabels(SweepSizes(1))), log.errors)
  {
    var s1, s2 := SessionParts(ans, db, log);
    assert ans(log.trace, Open).Ok?;
    var l := StaleDropped(db, s2.log);
    AfterStaleDropAllOk(ans, db, l);
    SessionCallsParts(db, SweepSizes(1));
    SessionLabelsParts(SweepSizes(1));
    SessionComposed(db, log, s1.log, s2.log, SessionRun(ans, db, log),
                    [CreateDatabase(db)] + [SwitchDatabase(db)] + TableCalls(SweepSizes(1))
                    + ([SwitchDatabase("")] + [DropDatabase(db)]) + [Close],
                    Durations(["openConnection"]), Durations(["startUp"]),
                    Durations(["createDatabase"]) + Durations(["switchDatabase"]) + Durations(TableLabels(SweepSizes(1)))
                    + Durations(["dropDatabase"]) + Durations(["closeConnection"]));
  }

  /** Against a backend that answers every call, a run with a selectable backend is the full schedule. */
  lemma RunCaseAllOk(tc: TestCase, ans: Oracle, db: string, log: Log)
    requires AllOk(ans) && CreateDatabaseRepository(tc).Success?
    ensures CaseRun(tc, ans, db, log)
            == Progress(None, Log(log.trace + SessionCalls(db, SweepSizes(1)),
                                  log.metrics + Durations(SessionLabels(SweepSizes(1))), log.errors))
  {
    SessionAllOk(ans, db, log);
  }
}
