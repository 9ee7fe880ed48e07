# Database tester benchmark driver, in Dafny

This project models the benchmark driver of the `cott` database tester
(`cott/database_tester/usecase/usecase.go`). One run of the driver:

- picks a repository for the configured component type;
- opens the connection and waits until the database answers a ping;
- drops a stale database, then creates and selects a fresh one;
- runs the table benchmark: create a table, truncate it, run a sweep of
  insert/select iterations over row counts 1, 10, …, 10^7, and drop the table;
- switches back, drops the database and closes the connection.

Each timed step adds one entry to the results accumulator. A step that
succeeds adds a `<name>Duration` metric; a step that fails adds a
`<name>. <message>` error.

The model has nine modules:

- **`Domain`** (`domain.dfy`) holds the test case record and the component-type
  constants of `cott/domain/test_case.go`, the error values, and the results
  accumulator as a class with two append-only sequences.
- **`Repository`** (`repository.dfy`) is the backend as an oracle. The repository
  object keeps the trace of calls made on it. A fixed function of the earlier
  calls and the current call decides whether each call succeeds.
- **`Schedule`** (`schedule.dfy`) gives the reference semantics as pure
  functions. They say which calls a phase makes, which metric names it records
  and which errors it records, for every possible backend. The closures the Go
  code hands to the step timer become the `Step` datatype.
- **`Usecase`** (`usecase.dfy`) holds the driver as imperative Dafny. It has the
  use-case class with the step timer, the readiness loop, the chunked bulk
  insert, the sweep loops and the row generator. Each driver method is proved
  to produce exactly the trace, the metric names and the errors of its
  `Schedule` function. The row generator has no `Schedule` function; its
  contract states its rows directly.
- **`StepProperties`, `SweepProperties`, `RunProperties`,
  `StaleDropProperties` and `FailFastProperties`** (`step_properties.dfy`,
  `sweep_properties.dfy`, `run_properties.dfy`, `stale_drop.dfy`,
  `fail_fast.dfy`) prove what `usecase.go` promises about those functions:
  - how the readiness loop and the chunking behave;
  - the order and labels of each sweep iteration;
  - fail-fast in an iteration, in the sweep and in the table benchmark: each
    issues a fixed call schedule and stops at the first refused call, and that
    the table drop happens only after a full sweep;
  - which failures the run ignores, and how the run ends;
  - the exact calls and metrics of a run on a backend that accepts every call.

## Model

| member | source | states |
|---|---|---|
| Domain.TestCaseResultsAccumulator.AddMetric | cott/database_tester/usecase/usecase.go:126 | appends exactly one metric and leaves the errors alone |
| Domain.TestCaseResultsAccumulator.AddError | cott/database_tester/usecase/usecase.go:121 | appends exactly one error message and leaves the metrics alone |
| Schedule.CreateDatabaseRepository | cott/database_tester/usecase/usecase.go:88-115 | succeeds exactly for component type `postgres` with both `POSTGRES_USER` and `POSTGRES_PASSWORD` present, building settings from the port, `localhost` and the two values; postgres with a missing key gives `NoRequiredEnvVarKey`; any other type gives `UnknownComponentForTesting` |
| Usecase.DatabaseTesterUsecase.constructor | cott/database_tester/usecase/usecase.go:25-29 | the use case works on database `cott_db` |
| Usecase.DatabaseTesterUsecase.CalcStepDuration | cott/database_tester/usecase/usecase.go:117-128 | on failure appends exactly `name + ". " + message`, adds no metric and returns the error; on success appends exactly one metric `name + "Duration"` (Micro, Second, non-negative), adds no error and returns nil; the trace and log equal `TimedStep` |
| SweepProperties.TimedStepOneEntry | cott/database_tester/usecase/usecase.go:117-128 | the step timer records exactly one entry, never both: the duration metric on success, the labelled error on failure, and it passes up the operation's own result |
| Usecase.DatabaseTesterUsecase.Execute | cott/database_tester/usecase/usecase.go:37-209 | each step closure makes the repository calls and returns the error that `StepRun` describes |
| StepProperties.StepRunCalls | cott/database_tester/usecase/usecase.go:37-209 | every step closure makes at least one repository call, and a failing one fails on its last call |
| Usecase.DatabaseTesterUsecase.AwaitReady | cott/database_tester/usecase/usecase.go:42-53 | the `for` loop over the pings produces exactly the trace and result of `PingLoop` with 300 attempts |
| StepProperties.PingLoopOutcome | cott/database_tester/usecase/usecase.go:44-52 | for any budget, failure means `CONNECTION_WAS_NOT_ESTABLISHED` after exactly `budget` failed pings; success means k pings whose last one, and only that one, was answered |
| StepProperties.ReadinessLoop | cott/database_tester/usecase/usecase.go:44-52 | between 1 and 300 pings are made; the loop returns nil if and only if one of the first 300 pings is answered; otherwise it returns `CONNECTION_WAS_NOT_ESTABLISHED` after exactly 300 pings |
| Usecase.DatabaseTesterUsecase.BulkInsert | cott/database_tester/usecase/usecase.go:173-189 | the chunked insert loop produces exactly the trace and result of `BulkInsertRun` |
| StepProperties.InsertChunksOutcome | cott/database_tester/usecase/usecase.go:177-181 | the chunk loop either makes all its 1000-row inserts, each one accepted, or stops at the first refused one, returning that call's message |
| StepProperties.BulkInsertChunking | cott/database_tester/usecase/usecase.go:174-184 | up to 1000 rows: one insert of `max(dataCount, 0)` rows, which succeeds if and only if it is accepted; above 1000: between 1 and `dataCount/1000` inserts of 1000 rows, success if and only if every one of the `dataCount/1000` is accepted, and then all of them are made |
| StepProperties.BulkInsertRowsWritten | cott/database_tester/usecase/usecase.go:174-184 | a successful bulk insert writes `dataCount - dataCount % 1000` rows above 1000 (the remainder is dropped) and `max(dataCount, 0)` rows otherwise |
| StepProperties.BulkInsertOf1500 | cott/database_tester/usecase/usecase.go:174-184 | for any backend, 1500 rows issue exactly one insert of 1000 rows and nothing for the remaining 500, and the bulk insert succeeds if and only if that insert is accepted |
| SweepProperties.SweepBulkInsertsComplete | cott/database_tester/usecase/usecase.go:174-184 | for every row count of the sweep, a successful bulk insert writes exactly that many rows |
| Usecase.DatabaseTesterUsecase.TestTableInsertSelect | cott/database_tester/usecase/usecase.go:170-214 | one iteration, including the follow-up loop `i /= 10`, produces exactly the trace, log and result of `InsertSelectRun`; only duration metrics are appended |
| SweepProperties.InsertSelectSuccess | cott/database_tester/usecase/usecase.go:170-214 | an iteration that succeeds made exactly the calls `<n>xInsertEmptyTable`, `selectById` with id `n/2`, `selectByConditions`, the four follow-up inserts when `n >= 1000`, and `truncate`, in that order, and recorded exactly their duration labels in that order |
| SweepProperties.FullTableFrom1000 | cott/database_tester/usecase/usecase.go:200-207 | the follow-up pass inserts 1000, 100, 10 and 1 rows, labelled `1000xInsert<n>xTable`, `100xInsert<n>xTable`, `10xInsert<n>xTable` and `1xInsert<n>xTable` |
| SweepProperties.SizePrefixes | cott/database_tester/usecase/usecase.go:202 | the follow-up sizes are written `1000x`, `100x`, `10x` and `1x` |
| SweepProperties.InsertSelectSettled | cott/database_tester/usecase/usecase.go:170-214 | an iteration only appends to the trace, the metrics and the errors, records one error exactly when it fails, and makes only insert, select and truncate calls |
| SweepProperties.InsertSelectAllOk | cott/database_tester/usecase/usecase.go:170-214 | an iteration succeeds on a backend that accepts every call |
| Usecase.DatabaseTesterUsecase.TestTable | cott/database_tester/usecase/usecase.go:130-168 | the table benchmark, with its loop `i *= 10`, produces exactly the trace and log of `TableRun`; only duration metrics are appended |
| SweepProperties.SweepSizesFromOne | cott/database_tester/usecase/usecase.go:159 | the sweep visits 1, 10, 100, 1000, 10^4, 10^5, 10^6 and 10^7, in that order |
| SweepProperties.SweepSettled | cott/database_tester/usecase/usecase.go:159-163 | the sweep only appends, records one error exactly when it fails, and makes only insert, select and truncate calls |
| SweepProperties.SweepSuccess | cott/database_tester/usecase/usecase.go:159-163 | a sweep that succeeds made exactly the iterations for each of its sizes, in order, with their labels |
| SweepProperties.TableRunShape | cott/database_tester/usecase/usecase.go:151-167 | the table benchmark stops after `createTable`, after `truncateEmptyTable`, inside the sweep with one more error, or not at all |
| FailFastProperties.RunCallsOutcome | cott/database_tester/usecase/usecase.go:151-213 | issuing a call schedule fail-fast succeeds if and only if every call is accepted after the calls before it, and then issues them all; otherwise it issues exactly the calls up to and including the first refused one, every earlier one accepted, and returns that call's message |
| FailFastProperties.RunCallsAppend | cott/database_tester/usecase/usecase.go:151-213 | issuing two schedules in a row is issuing the first, then the second only if the first was not refused |
| FailFastProperties.StageThen | cott/database_tester/usecase/usecase.go:117-128 | two stages in a row, the second run only when the first succeeded, form one stage of the joined steps and labels; a failure in the second half is placed at the matching step of the whole |
| FailFastProperties.InsertSelectFailFast | cott/database_tester/usecase/usecase.go:170-214 | an iteration is the fail-fast run of its steps (the bulk insert's calls, the two selects, the follow-up inserts, the truncate); on success it records every step's duration; on failure its last call belongs to some step k, and it records the durations of the steps before k and one error labelled with step k's name |
| FailFastProperties.IterationStepsFlatten | cott/database_tester/usecase/usecase.go:170-214 | the steps of an iteration, one after the other, are exactly the iteration's calls in order |
| FailFastProperties.TableStepsFlatten | cott/database_tester/usecase/usecase.go:151-167 | the steps of the table benchmark, one after the other, are exactly its calls in order |
| FailFastProperties.SweepFailFast | cott/database_tester/usecase/usecase.go:159-163 | the sweep is the fail-fast run of the concatenated iteration steps, with the concatenated labels: a refused call ends it, the error names the step that made that call, and no later iteration runs |
| FailFastProperties.TableRunFailFast | cott/database_tester/usecase/usecase.go:151-167 | the table benchmark is the fail-fast run of the steps `createTable`, `truncateEmptyTable`, the sweep's steps and `dropTable`, with their labels |
| FailFastProperties.StageOutcome | cott/database_tester/usecase/usecase.go:117-128 | a stage whose calls are all accepted issues them all and records every duration; otherwise it issues the calls up to the first refused one, call j, fails with that call's message, and for the step k whose calls hold call j it records the durations of the steps before k and one error labelled with step k's name |
| FailFastProperties.TableRunStopsAtRefusal | cott/database_tester/usecase/usecase.go:151-167 | when every call of the table schedule is accepted the benchmark issues them all with every duration and no error; otherwise its trace ends at the first refused call, every earlier call accepted, and the one error it adds names the step that made that call |
| SweepProperties.TableRunCalls | cott/database_tester/usecase/usecase.go:130-168 | the table benchmark makes only table calls, never a database or connection call |
| SweepProperties.TableRunSettled | cott/database_tester/usecase/usecase.go:151-167 | the table benchmark only appends and records at most one error |
| SweepProperties.TableRunSuccess | cott/database_tester/usecase/usecase.go:151-167 | a table benchmark that records no error made exactly `createTable`, `truncateEmptyTable`, the eight iterations and `dropTable`, with the matching labels |
| SweepProperties.DropTableOnlyAfterFullSweep | cott/database_tester/usecase/usecase.go:159-167 | the table is dropped if and only if the benchmark ran to completion, that is the whole sweep succeeded |
| SweepProperties.TableRunOutcome | cott/database_tester/usecase/usecase.go:151-167 | appends only, at most one error, the complete call and label sequence when no error is recorded, and a table drop exactly in the complete run |
| SweepProperties.TableRunAllOk | cott/database_tester/usecase/usecase.go:151-167 | on a backend that accepts every call, the table benchmark makes the complete call and label sequence |
| Usecase.GenerateTableData | cott/database_tester/usecase/usecase.go:232-265 | returns `max(count, 0)` rows, each with exactly the keys `f1`..`f11`; every integer field is in [0,255); `f3` holds exactly when its draw exceeds 128 |
| Usecase.DatabaseTesterUsecase.SessionOn | cott/database_tester/usecase/usecase.go:37-85 | the run on an existing repository produces exactly the trace and log of `SessionRun`; only duration metrics are appended |
| Usecase.DatabaseTesterUsecase.RunCase | cott/database_tester/usecase/usecase.go:31-86 | a selection error is returned with no repository built, no call made and the accumulator unchanged; otherwise the run returns nil and the log equals `CaseRun` |
| RunProperties.RunCaseSelection | cott/database_tester/usecase/usecase.go:31-35 | the run returns an error if and only if selection fails, and then returns that error with the log untouched; any type other than postgres gives `UnknownComponentForTesting`; once a repository exists the run is the session |
| RunProperties.OpenFailureEndsSession | cott/database_tester/usecase/usecase.go:37-39 | a refused `Open` ends the run after that one call with the error `openConnection. <message>` |
| RunProperties.StartUpNotFatal | cott/database_tester/usecase/usecase.go:42-62 | once `Open` succeeds, the run goes past the readiness loop whatever its result: the stale drop and `CreateDatabase` follow between 1 and 300 pings |
| StaleDropProperties.StaleDropIgnored | cott/database_tester/usecase/usecase.go:58-60 | two backends that differ only in how they answer the first drop of the database give identical runs: the stale drop's result is neither recorded nor acted on |
| RunProperties.AfterStaleDropStops | cott/database_tester/usecase/usecase.go:62-68 | a refused `createDatabase` or `switchDatabase` ends the run right there, with its labelled error and nothing after it |
| RunProperties.CleanUpStops | cott/database_tester/usecase/usecase.go:72-79 | a refused switch back ends the run with the backend's raw, unlabelled message; a refused `dropDatabase` ends it before `Close`, with its labelled error |
| RunProperties.SessionEnding | cott/database_tester/usecase/usecase.go:37-85 | the run only appends; `Close` is only ever its last call, right after a switch back and a database drop that both succeeded; a run whose last call is the switch back failed there and recorded the raw message last |
| RunProperties.SessionAllOk | cott/database_tester/usecase/usecase.go:37-85 | on a backend that accepts every call, the run makes exactly `Open`, one ping, the stale drop, create, switch, the table benchmark, switch back, drop and close, and records, in order, the durations of `openConnection`, `startUp`, `createDatabase`, `switchDatabase`, the table benchmark's steps, `dropDatabase` and `closeConnection` |
| RunProperties.RunCaseAllOk | cott/database_tester/usecase/usecase.go:31-86 | for a valid postgres configuration and a backend that accepts every call, the run returns nil with the complete call and label sequence |

## Left out

- Logging (`logrus`) and both `time.Sleep` calls are left out. They change no call and no error. The 100 ms retry sleep runs inside the timed readiness step, so it only lengthens the `startUp` duration, which the model leaves arbitrary (see the clock line). The 1 s sleep after a failed readiness wait runs outside every timed step.
- The clock is not modelled. Each duration is an arbitrary non-negative whole number of microseconds, chosen inside the step timer. The `f4` timestamp is an opaque value.
- `math/rand` is not modelled. Each integer draw is an arbitrary value in [0,255). The `f5`/`f6` floats are opaque 32- and 64-bit patterns, with no claim about their range.
- The Postgres repository and its SQL are foreign code and are not modelled. The backend is an oracle over the call history. `NewPostgresDatabaseTesterRepository` is modelled only as the settings it receives.
- An insert call in the trace records the number of rows it carries, not their contents.
- The accumulator's implementation and storage are not modelled, only its append contract. A metric's value is an integer, standing in for `float64(duration.Microseconds())`.
- The domain error values are declared in a file that is not part of this model. Their identifiers stand in for their message texts.
- Truncation to `int64` in `strconv.FormatInt(int64(dataCount), 10)` is not modelled. The driver's row counts are all positive and at most 10^7, so they fit.
- The `DatabaseTesterUsecase` Go interface is not modelled as a separate type. The class has its constructor and `RunCase`.
- RunProperties.SessionEnding: stated only for a database name other than the empty one. The use case always works on `cott_db`.
- Usecase.GenerateTableData: ties each row only to the bounds of its draws, not to particular values, because the draws are random.
- Usecase.GenerateTableData: `f1`, `f2` and `f7`..`f11` each take an independent draw in [0,255), and `f3` takes one more draw, compared with 128.
