/**
 * The values the core exchanges with the Great Expectations framework:
 * column types, expectation configurations, suites and validation results.
 * Only their shape is modelled; the framework's behaviour is not.
 */
module GreatExpectations {
  import opened Core
  import opened Wrappers

  /** Great Expectations' column classification. */
  datatype ProfilerDataType = INT | FLOAT | NUMERIC | STRING | BOOLEAN | DATETIME | UNKNOWN

  /** Iteration order of `for data_type in ProfilerDataType`. */
  const AllProfilerDataTypes: seq<ProfilerDataType> := [INT, FLOAT, NUMERIC, STRING, BOOLEAN, DATETIME, UNKNOWN]

  lemma AllProfilerDataTypesComplete()
    ensures forall t :: t in AllProfilerDataTypes
  {
    forall t: ProfilerDataType ensures t in AllProfilerDataTypes {
      match t
      case INT => assert AllProfilerDataTypes[0] == t;
      case FLOAT => assert AllProfilerDataTypes[1] == t;
      case NUMERIC => assert AllProfilerDataTypes[2] == t;
      case STRING => assert AllProfilerDataTypes[3] == t;
      case BOOLEAN => assert AllProfilerDataTypes[4] == t;
      case DATETIME => assert AllProfilerDataTypes[5] == t;
      case UNKNOWN => assert AllProfilerDataTypes[6] == t;
    }
  }

  /** `str(t)` of an enum member. */
  function TypeName(t: ProfilerDataType): string {
    match t
    case INT => "ProfilerDataType.INT"
    case FLOAT => "ProfilerDataType.FLOAT"
    case NUMERIC => "ProfilerDataType.NUMERIC"
    case STRING => "ProfilerDataType.STRING"
    case BOOLEAN => "ProfilerDataType.BOOLEAN"
    case DATETIME => "ProfilerDataType.DATETIME"
    case UNKNOWN => "ProfilerDataType.UNKNOWN"
  }

  type Kwargs = map<string, Value>

  datatype ExpectationConfiguration = ExpectationConfiguration(expectationType: string, kwargs: Kwargs)

  /**
   * How the framework resolves a success keyword (`get_success_kwargs`): the
   * configuration's own value when it has one, else the expectation's default.
   */
  function SuccessKwarg(configuration: ExpectationConfiguration, defaults: Kwargs, key: string): (v: Value)
    requires key in configuration.kwargs || key in defaults
    ensures key in configuration.kwargs ==> v == configuration.kwargs[key]
    ensures key !in configuration.kwargs ==> v == defaults[key]
  {
    if key in configuration.kwargs then configuration.kwargs[key] else defaults[key]
  }

  /** Per-column meta information recorded by the profiler, e.g. `{"type": "ProfilerDataType.INT"}`. */
  type ColumnMeta = map<string, string>

  datatype ExpectationSuite = ExpectationSuite(
    expectationSuiteName: string,
    expectations: seq<ExpectationConfiguration>,
    meta: map<string, map<string, ColumnMeta>>)

  /** `add_expectation`, modelled as appending to the suite. */
  function AddExpectation(suite: ExpectationSuite, configuration: ExpectationConfiguration): (r: ExpectationSuite)
    ensures r.expectations == suite.expectations + [configuration]
    ensures r.expectationSuiteName == suite.expectationSuiteName && r.meta == suite.meta
  {
    suite.(expectations := suite.expectations + [configuration])
  }

  /** `result.success`: `True`, `False` or `None`. */
  datatype SuccessFlag = SuccessTrue | SuccessFalse | SuccessNone

  /** The `result` dictionary of a validation result; `None` marks a missing key. */
  datatype ResultDict = ResultDict(
    elementCount: Option<int>,
    unexpectedCount: Option<int>,
    partialUnexpectedList: Option<seq<Value>>)

  datatype ExpectationValidationResult = ExpectationValidationResult(
    success: SuccessFlag,
    result: ResultDict,
    expectationConfig: ExpectationConfiguration)

  /** A metric's configuration object; Great Expectations hands these out and they are mutated in place. */
  class MetricConfiguration {
    var metricName: string
    var metricValueKwargs: Kwargs

    constructor (name: string, valueKwargs: Kwargs)
      ensures metricName == name && metricValueKwargs == valueKwargs
    {
      metricName := name;
      metricValueKwargs := valueKwargs;
    }
  }

  /** The parts of a Great Expectations pandas dataset the profiler touches. */
  class PandasDataset {
    const columns: seq<string>
    var defaultExpectationArguments: Kwargs
    var config: map<string, Value>

    constructor (tableColumns: seq<string>)
      ensures columns == tableColumns && defaultExpectationArguments == map[] && config == map[]
    {
      columns := tableColumns;
      defaultExpectationArguments := map[];
      config := map[];
    }

    /** `get_table_columns` */
    function GetTableColumns(): (r: seq<string>)
    {
      columns
    }

    /** `set_default_expectation_argument` */
    method SetDefaultExpectationArgument(key: string, value: Value)
      modifies this
      ensures defaultExpectationArguments == old(defaultExpectationArguments)[key := value]
      ensures config == old(config)
    {
      defaultExpectationArguments := defaultExpectationArguments[key := value];
    }

    /** `set_config_value` */
    method SetConfigValue(key: string, value: Value)
      modifies this
      ensures config == old(config)[key := value]
      ensures defaultExpectationArguments == old(defaultExpectationArguments)
    {
      config := config[key := value];
    }
  }

  /** An opaque handle on a Great Expectations data context. */
  datatype DataContext = DataContext(contextRootDir: string)
}
