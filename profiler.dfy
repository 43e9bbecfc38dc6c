/**
 * `DataSmellAwareProfiler._profile`: for every column of a dataset, one
 * expectation per data smell registered for the column's type, plus the
 * column types as suite meta information.
 */
module Profiler {
  import opened Wrappers
  import opened Core
  import opened GreatExpectations
  import opened PyDict
  import opened DataSmell

  /** A value in the profiler's configuration dict. */
  datatype ConfigValue = RegistryValue(registry: DataSmellRegistry) | OtherValue(value: Value)

  type ProfilerConfiguration = map<string, ConfigValue>

  /** The registry to use: the configured one if it is a registry, else the default. */
  function ResolveRegistry(configuration: Option<ProfilerConfiguration>, defaultRegistry: DataSmellRegistry): (r: DataSmellRegistry)
    ensures (configuration.None? || "registry" !in configuration.value || !configuration.value["registry"].RegistryValue?)
            ==> r == defaultRegistry
    ensures configuration.Some? && "registry" in configuration.value && configuration.value["registry"].RegistryValue?
            ==> r == configuration.value["registry"].registry
  {
    if configuration.None? || "registry" !in configuration.value || !configuration.value["registry"].RegistryValue? then
      defaultRegistry
    else
      configuration.value["registry"].registry
  }

  const SuiteName: string := "profiled_expectation_suite"

  /** The kwargs every generated expectation gets. */
  function ColumnKwargs(column: string): Kwargs {
    map["column" := Str(column)]
  }

  /** The expectations generated for one column, one per expectation type in order. */
  function ColumnExpectations(column: string, expectationTypes: seq<string>): (r: seq<ExpectationConfiguration>)
    ensures |r| == |expectationTypes|
    ensures forall i :: 0 <= i < |r| ==> r[i] == ExpectationConfiguration(expectationTypes[i], ColumnKwargs(column))
  {
    seq(|expectationTypes|, i requires 0 <= i < |expectationTypes| => ExpectationConfiguration(expectationTypes[i], ColumnKwargs(column)))
  }

  /** The expectation types the registry holds for a column. */
  function TypesFor(s: RegistryState, columnType: string -> ProfilerDataType, column: string): seq<string>
    requires WellFormed(s)
  {
    Values(s[columnType(column)])
  }

  /** The generated expectations: grouped by column in column order, registry order within a column. */
  function Expectations(s: RegistryState, columnType: string -> ProfilerDataType, columns: seq<string>): seq<ExpectationConfiguration>
    requires WellFormed(s)
    decreases |columns|
  {
    if columns == [] then []
    else
      var last := columns[|columns| - 1];
      Expectations(s, columnType, columns[..|columns| - 1]) + ColumnExpectations(last, TypesFor(s, columnType, last))
  }

  /** The sum over the columns of the size of the smell dict of the column's type. */
  function SmellDictSizes(s: RegistryState, columnType: string -> ProfilerDataType, columns: seq<string>): nat
    requires WellFormed(s)
  {
    if columns == [] then 0 else |s[columnType(columns[0])]| + SmellDictSizes(s, columnType, columns[1..])
  }

  /** `meta["columns"]`: every column mapped to `{"type": str(type)}`. */
  function ColumnsMeta(columnType: string -> ProfilerDataType, columns: seq<string>): (m: map<string, ColumnMeta>)
    ensures m.Keys == set c | c in columns
  {
    map c | c in columns :: map["type" := TypeName(columnType(c))]
  }

  lemma {:induction false} ExpectationsAppend(s: RegistryState, columnType: string -> ProfilerDataType, a: seq<string>, b: seq<string>)
    requires WellFormed(s)
    ensures Expectations(s, columnType, a + b) == Expectations(s, columnType, a) + Expectations(s, columnType, b)
    decreases |b|
  {
    if b == [] {
      assert a + b == a;
    } else {
      var front := b[..|b| - 1];
      var last := b[|b| - 1];
      var tail := ColumnExpectations(last, TypesFor(s, columnType, last));
      assert (a + b)[..|a + b| - 1] == a + front;
      assert (a + b)[|a + b| - 1] == last;
      assert Expectations(s, columnType, a + b) == Expectations(s, columnType, a + front) + tail;
      ExpectationsAppend(s, columnType, a, front);
      assert Expectations(s, columnType, b) == Expectations(s, columnType, front) + tail;
    }
  }

  /** The number of expectations is the sum of the smell dict sizes of the columns' types. */
  lemma {:induction false} ExpectationCount(s: RegistryState, columnType: string -> ProfilerDataType, columns: seq<string>)
    requires WellFormed(s)
    ensures |Expectations(s, columnType, columns)| == SmellDictSizes(s, columnType, columns)
    decreases |columns|
  {
    if columns != [] {
      assert columns == [columns[0]] + columns[1..];
      ExpectationsAppend(s, columnType, [columns[0]], columns[1..]);
      assert [columns[0]][..0] == [];
      ExpectationCount(s, columnType, columns[1..]);
    }
  }

  /** Every generated expectation targets one column with kwargs `{"column": c}` and a type registered for it. */
  lemma {:induction false} ExpectationOrigin(s: RegistryState, columnType: string -> ProfilerDataType, columns: seq<string>, k: nat)
    requires WellFormed(s)
    requires k < |Expectations(s, columnType, columns)|
    ensures exists j, i :: 0 <= j < |columns| && 0 <= i < |TypesFor(s, columnType, columns[j])| &&
              Expectations(s, columnType, columns)[k] == ExpectationConfiguration(TypesFor(s, columnType, columns[j])[i], ColumnKwargs(columns[j]))
    decreases |columns|
  {
    var front := columns[..|columns| - 1];
    var last := columns[|columns| - 1];
    var types := TypesFor(s, columnType, last);
    if k < |Expectations(s, columnType, front)| {
      ExpectationOrigin(s, columnType, front, k);
      var j, i :| 0 <= j < |front| && 0 <= i < |TypesFor(s, columnType, front[j])| &&
                 Expectations(s, columnType, front)[k] == ExpectationConfiguration(TypesFor(s, columnType, front[j])[i], ColumnKwargs(front[j]));
      assert columns[j] == front[j];
    } else {
      var i := k - |Expectations(s, columnType, front)|;
      assert Expectations(s, columnType, columns)[k] == ColumnExpectations(last, types)[i];
      assert columns[|columns| - 1] == last;
    }
  }

  /** Conversely, every column gets one expectation for every expectation type registered for its type. */
  lemma {:induction false} ExpectationCoverage(s: RegistryState, columnType: string -> ProfilerDataType, columns: seq<string>, j: nat, i: nat)
    requires WellFormed(s)
    requires j < |columns| && i < |TypesFor(s, columnType, columns[j])|
    ensures ExpectationConfiguration(TypesFor(s, columnType, columns[j])[i], ColumnKwargs(columns[j])) in Expectations(s, columnType, columns)
    decreases |columns|
  {
    var front := columns[..|columns| - 1];
    var last := columns[|columns| - 1];
    if j < |front| {
      assert front[j] == columns[j];
      ExpectationCoverage(s, columnType, front, j, i);
    } else {
      assert ColumnExpectations(last, TypesFor(s, columnType, last))[i] in ColumnExpectations(last, TypesFor(s, columnType, last));
    }
  }

  /** A registry without entries yields no expectations, whatever the dataset. */
  lemma {:induction false} EmptyRegistryNoExpectations(s: RegistryState, columnType: string -> ProfilerDataType, columns: seq<string>)
    requires WellFormed(s)
    requires forall t :: s[t] == []
    ensures Expectations(s, columnType, columns) == []
    decreases |columns|
  {
    if columns != [] {
      EmptyRegistryNoExpectations(s, columnType, columns[..|columns| - 1]);
    }
  }

  /** `meta_columns` after its first loop has run `i` times. */
  function BlankRun(columns: seq<string>, i: nat): map<string, ColumnMeta>
    requires i <= |columns|
  {
    if i == 0 then map[] else BlankRun(columns, i - 1)[columns[i - 1] := map[]]
  }

  /** `meta_columns` after the main loop has run `i` times. */
  function TypedRun(columnType: string -> ProfilerDataType, columns: seq<string>, i: nat): map<string, ColumnMeta>
    requires i <= |columns|
  {
    if i == 0 then BlankRun(columns, |columns|)
    else
      var m := TypedRun(columnType, columns, i - 1);
      var c := columns[i - 1];
      m[c := (if c in m then m[c] else map[])["type" := TypeName(columnType(c))]]
  }

  lemma {:induction false} BlankRunAt(columns: seq<string>, i: nat, c: string)
    requires i <= |columns|
    ensures c in BlankRun(columns, i) <==> c in columns[..i]
    ensures c in BlankRun(columns, i) ==> BlankRun(columns, i)[c] == map[]
  {
    if i > 0 {
      BlankRunAt(columns, i - 1, c);
      assert columns[..i] == columns[..i - 1] + [columns[i - 1]];
    }
  }

  /** Column by column: every column is present, typed once the loop has reached it. */
  lemma {:induction false} TypedRunAt(columnType: string -> ProfilerDataType, columns: seq<string>, i: nat, c: string)
    requires i <= |columns|
    ensures c in TypedRun(columnType, columns, i) <==> c in columns
    ensures c in columns ==>
              TypedRun(columnType, columns, i)[c] == if c in columns[..i] then map["type" := TypeName(columnType(c))] else map[]
  {
    if i == 0 {
      BlankRunAt(columns, |columns|, c);
      assert columns[..|columns|] == columns;
    } else {
      TypedRunAt(columnType, columns, i - 1, c);
      assert columns[..i] == columns[..i - 1] + [columns[i - 1]];
      if c == columns[i - 1] {
        TypedRunAt(columnType, columns, i - 1, columns[i - 1]);
      }
    }
  }

  lemma TypedRunHasColumn(columnType: string -> ProfilerDataType, columns: seq<string>, i: nat, j: nat)
    requires i <= |columns| && j < |columns|
    ensures columns[j] in TypedRun(columnType, columns, i)
  {
    TypedRunAt(columnType, columns, i, columns[j]);
  }

  /** After the main loop, `meta_columns` holds exactly the columns, each with its type name. */
  lemma TypedRunComplete(columnType: string -> ProfilerDataType, columns: seq<string>)
    ensures TypedRun(columnType, columns, |columns|) == ColumnsMeta(columnType, columns)
  {
    var m := TypedRun(columnType, columns, |columns|);
    var expected := ColumnsMeta(columnType, columns);
    assert columns[..|columns|] == columns;
    forall c ensures c in m <==> c in expected {
      TypedRunAt(columnType, columns, |columns|, c);
    }
    forall c | c in m ensures m[c] == expected[c] {
      TypedRunAt(columnType, columns, |columns|, c);
    }
  }

  lemma ExpectationsStep(s: RegistryState, columnType: string -> ProfilerDataType, columns: seq<string>, i: nat)
    requires WellFormed(s)
    requires i < |columns|
    ensures Expectations(s, columnType, columns[..i + 1]) ==
            Expectations(s, columnType, columns[..i]) + ColumnExpectations(columns[i], TypesFor(s, columnType, columns[i]))
  {
    assert columns[..i + 1][..i] == columns[..i];
  }

  lemma ColumnExpectationsStep(column: string, expectationTypes: seq<string>, j: nat)
    requires j < |expectationTypes|
    ensures ColumnExpectations(column, expectationTypes[..j + 1]) ==
            ColumnExpectations(column, expectationTypes[..j]) + [ExpectationConfiguration(expectationTypes[j], ColumnKwargs(column))]
  {
  }

  /** The inner loop of `_profile`: one expectation per expectation type, in order. */
  method AddColumnExpectations(suite0: ExpectationSuite, column: string, expectationTypes: seq<string>) returns (suite: ExpectationSuite)
    ensures suite.expectationSuiteName == suite0.expectationSuiteName && suite.meta == suite0.meta
    ensures suite.expectations == suite0.expectations + ColumnExpectations(column, expectationTypes)
  {
    suite := suite0;
    var kwargs := ColumnKwargs(column);
    for j := 0 to |expectationTypes|
      invariant suite.expectationSuiteName == suite0.expectationSuiteName && suite.meta == suite0.meta
      invariant suite.expectations == suite0.expectations + ColumnExpectations(column, expectationTypes[..j])
    {
      var config := ExpectationConfiguration(expectationTypes[j], kwargs);
      ColumnExpectationsStep(column, expectationTypes, j);
      ghost var done := ColumnExpectations(column, expectationTypes[..j]);
      assert (suite0.expectations + done) + [config] == suite0.expectations + (done + [config]);
      suite := AddExpectation(suite, config);
    }
    assert expectationTypes[..|expectationTypes|] == expectationTypes;
  }

  /**
   * `_profile`. The dataset's default expectation arguments and config are
   * updated; the registry is only read.
   */
  method Profile(dataset: PandasDataset, configuration: Option<ProfilerConfiguration>, defaultRegistry: DataSmellRegistry,
                 columnType: string -> ProfilerDataType)
    returns (suite: ExpectationSuite)
    requires ResolveRegistry(configuration, defaultRegistry).Valid()
    modifies dataset
    ensures dataset.defaultExpectationArguments == old(dataset.defaultExpectationArguments)["catch_exceptions" := Bool(true)]
    ensures dataset.config == old(dataset.config)["interactive_evaluation" := Bool(false)]
    ensures suite.expectationSuiteName == SuiteName
    ensures suite.expectations == Expectations(ResolveRegistry(configuration, defaultRegistry).registeredDataSmells, columnType, dataset.columns)
    ensures suite.meta == map["columns" := ColumnsMeta(columnType, dataset.columns)]
  {
    suite := ExpectationSuite(SuiteName, [], map[]);
    var registry := ResolveRegistry(configuration, defaultRegistry);

    ghost var s := registry.registeredDataSmells;
    dataset.SetDefaultExpectationArgument("catch_exceptions", Bool(true));
    dataset.SetConfigValue("interactive_evaluation", Bool(false));
    assert registry.registeredDataSmells == s && registry.Valid();

    var columns := dataset.GetTableColumns();

    var metaColumns: map<string, ColumnMeta> := map[];
    for i := 0 to |columns|
      modifies {}
      invariant metaColumns == BlankRun(columns, i)
    {
      metaColumns := metaColumns[columns[i] := map[]];
    }

    for i := 0 to |columns|
      modifies {}
      invariant metaColumns == TypedRun(columnType, columns, i)
      invariant suite.expectationSuiteName == SuiteName && suite.meta == map[]
      invariant suite.expectations == Expectations(s, columnType, columns[..i])
    {
      var column := columns[i];
      var type_ := columnType(column);
      TypedRunHasColumn(columnType, columns, i, i);
      metaColumns := metaColumns[column := metaColumns[column]["type" := TypeName(type_)]];

      var expectationDict := registry.GetSmellDictForProfilerDataType(type_);
      suite := AddColumnExpectations(suite, column, Values(expectationDict));
      ExpectationsStep(s, columnType, columns, i);
    }
    TypedRunComplete(columnType, columns);
    assert columns[..|columns|] == columns;

    suite := suite.(meta := suite.meta["columns" := metaColumns]);
  }
}

/** Profiling examples over the two-smell registry of the tests. */
module ProfilerExamples {
  import opened Core
  import opened GreatExpectations
  import opened PyDict
  import opened DataSmell
  import opened Profiler

  const Dataset1Columns: seq<string> := ["int_col1", "int_col2", "float_col1", "float_col2", "string_col1"]

  /** EXTREME_VALUE for (INT, FLOAT), then INTEGER_AS_FLOATING_POINT_NUMBER for FLOAT. */
  function TwoSmellRegistry(): RegistryState {
    Registered(Registered(EmptyState(), [INT, FLOAT], EXTREME_VALUE_SMELL, "expect_column_values_to_not_contain_extreme_value_smell"),
               [FLOAT], INTEGER_AS_FLOATING_POINT_NUMBER_SMELL, "expect_column_values_to_not_contain_integer_as_floating_point_number_smell")
  }

  /** The two-smell registry holds one smell for INT, two for FLOAT and none for STRING. */
  lemma TwoSmellRegistrySizes()
    ensures WellFormed(TwoSmellRegistry())
    ensures |TwoSmellRegistry()[INT]| == 1 && |TwoSmellRegistry()[FLOAT]| == 2 && |TwoSmellRegistry()[STRING]| == 0
  {
    var e := "expect_column_values_to_not_contain_extreme_value_smell";
    var s1 := Registered(EmptyState(), [INT, FLOAT], EXTREME_VALUE_SMELL, e);
    EmptyStateWellFormed();
    RegisteredWellFormed(EmptyState(), [INT, FLOAT], EXTREME_VALUE_SMELL, e);
    ExtremeValueFixture();
    assert s1[STRING] == [];
    var e2 := "expect_column_values_to_not_contain_integer_as_floating_point_number_smell";
    RegisteredWellFormed(s1, [FLOAT], INTEGER_AS_FLOATING_POINT_NUMBER_SMELL, e2);
    RegisteredFrame(s1, [FLOAT], INTEGER_AS_FLOATING_POINT_NUMBER_SMELL, e2, INT, EXTREME_VALUE_SMELL);
    RegisteredFrame(s1, [FLOAT], INTEGER_AS_FLOATING_POINT_NUMBER_SMELL, e2, STRING, EXTREME_VALUE_SMELL);
    assert INTEGER_AS_FLOATING_POINT_NUMBER_SMELL !in Keys(s1[FLOAT]);
  }

  /** Two integer, two float and one string column give 1 + 1 + 2 + 2 + 0 expectations. */
  lemma SixExpectations(s: RegistryState, columnType: string -> ProfilerDataType)
    requires WellFormed(s) && |s[INT]| == 1 && |s[FLOAT]| == 2 && |s[STRING]| == 0
    requires columnType("int_col1") == INT && columnType("int_col2") == INT
    requires columnType("float_col1") == FLOAT && columnType("float_col2") == FLOAT
    requires columnType("string_col1") == STRING
    ensures |Expectations(s, columnType, Dataset1Columns)| == 6
  {
    ExpectationCount(s, columnType, Dataset1Columns);
    var c := Dataset1Columns;
    assert SmellDictSizes(s, columnType, c[4..]) == 0 by {
      assert c[4..][1..] == [];
    }
    assert c[3..][1..] == c[4..];
    assert SmellDictSizes(s, columnType, c[3..]) == 2;
    assert c[2..][1..] == c[3..];
    assert SmellDictSizes(s, columnType, c[2..]) == 4;
    assert c[1..][1..] == c[2..];
    assert SmellDictSizes(s, columnType, c[1..]) == 5;
  }

  /** The same with the registry of the tests. */
  lemma SixExpectationsWithTwoSmellRegistry(columnType: string -> ProfilerDataType)
    requires columnType("int_col1") == INT && columnType("int_col2") == INT
    requires columnType("float_col1") == FLOAT && columnType("float_col2") == FLOAT
    requires columnType("string_col1") == STRING
    ensures WellFormed(TwoSmellRegistry()) && |Expectations(TwoSmellRegistry(), columnType, Dataset1Columns)| == 6
  {
    TwoSmellRegistrySizes();
    SixExpectations(TwoSmellRegistry(), columnType);
  }

  /** With the empty registry no expectation is generated. */
  lemma EmptyRegistryExample(columnType: string -> ProfilerDataType)
    ensures Expectations(EmptyState(), columnType, Dataset1Columns) == []
  {
    EmptyStateWellFormed();
    EmptyRegistryNoExpectations(EmptyState(), columnType, Dataset1Columns);
  }
}
