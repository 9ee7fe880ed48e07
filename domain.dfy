/**
 * The domain types the database tester works with: the test case it is
 * given, the errors it can report and the results accumulator it appends to.
 */
module Domain {

  datatype Option<+T> = None | Some(value: T)

  datatype Result<+R, +E> = Success(value: R) | Failure(error: E)

  /** Go declares ComponentType as a string type, so any string may arrive. */
  type ComponentType = string

  const ComponentTypeNA: ComponentType := ""
  const ComponentTypePostgres: ComponentType := "postgres"
  const ComponentTypeKafka: ComponentType := "kafka"

  /** A Go uint16. */
  type Port = p: int | 0 <= p < 0x1_0000

  /** One benchmark run, as read from the configuration. */
  datatype TestCase = TestCase(
    componentType: ComponentType,
    image: string,
    port: Port,
    envVars: map<string, string>)

  /**
   * The errors the tester can see: a failure reported by the backend
   * (carrying the backend's message) and the three domain error values.
   */
  datatype Error =
    | RepositoryError(message: string)
    | ConnectionWasNotEstablished
    | NoRequiredEnvVarKey
    | UnknownComponentForTesting

  /**
   * The text of `err.Error()`.  The domain errors are declared in a file
   * that is not part of this model, so their identifiers stand in for
   * their texts.
   */
  function Message(e: Error): string {
    match e
    case RepositoryError(m) => m
    case ConnectionWasNotEstablished => "CONNECTION_WAS_NOT_ESTABLISHED"
    case NoRequiredEnvVarKey => "NO_REQUIRED_ENV_VAR_KEY"
    case UnknownComponentForTesting => "UNKNOWN_COMPONENT_FOR_TESTING"
  }

  datatype UnitOfMeasurePrefix = Micro
  datatype UnitOfMeasure = Second

  datatype Metric = Metric(name: string, prefix: UnitOfMeasurePrefix, unit: UnitOfMeasure, value: int)

  /** The names of a sequence of metrics, in order. */
  function MetricNames(ms: seq<Metric>): (names: seq<string>)
    ensures |names| == |ms|
    ensures forall i :: 0 <= i < |ms| ==> names[i] == ms[i].name
  {
    seq(|ms|, i requires 0 <= i < |ms| => ms[i].name)
  }

  lemma MetricNamesAppend(ms: seq<Metric>, m: Metric)
    ensures MetricNames(ms + [m]) == MetricNames(ms) + [m.name]
  {
  }

  /** A duration in whole microseconds, as the step timer reports it. */
  predicate IsDuration(m: Metric) {
    m.prefix == Micro && m.unit == Second && m.value >= 0
  }

  /** `after` is `before` followed by duration metrics only. */
  ghost predicate AppendsDurations(before: seq<Metric>, after: seq<Metric>) {
    before <= after && forall i :: |before| <= i < |after| ==> IsDuration(after[i])
  }

  lemma AppendsDurationsTransitive(a: seq<Metric>, b: seq<Metric>, c: seq<Metric>)
    requires AppendsDurations(a, b) && AppendsDurations(b, c)
    ensures AppendsDurations(a, c)
  {
    assert forall i :: |a| <= i < |b| ==> c[i] == b[i];
  }

  /**
   * The shared results sink of one run.  Only its append contract is
   * modelled: the tester never reads it back or resets it.
   */
  class TestCaseResultsAccumulator {
    const testCase: TestCase
    var metrics: seq<Metric>
    var errors: seq<string>

    constructor (tc: TestCase)
      ensures testCase == tc && metrics == [] && errors == []
    {
      testCase := tc;
      metrics := [];
      errors := [];
    }

    method AddMetric(name: string, prefix: UnitOfMeasurePrefix, unit: UnitOfMeasure, value: int)
      modifies this
      ensures metrics == old(metrics) + [Metric(name, prefix, unit, value)]
      ensures errors == old(errors)
    {
      metrics := metrics + [Metric(name, prefix, unit, value)];
    }

    method AddError(message: string)
      modifies this
      ensures errors == old(errors) + [message]
      ensures metrics == old(metrics)
    {
      errors := errors + [message];
    }
  }
}
