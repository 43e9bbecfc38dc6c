# Data smell detection, modelled in Dafny

This project models the detection engine of the data smell detection
library, which sits on top of Great Expectations, together with three small
helpers of its Django web application.

- **Registry** (`datasmell.dfy`, module `DataSmell`). `DataSmellRegistry` is a
  class whose field maps every column type (`ProfilerDataType`) to an
  insertion-ordered dict from data smell type to expectation type.
  `register` updates that field in place, in a loop. The module also holds
  `DataSmellMetadata.validate_configuration`, `register_data_smell` and the
  two reverse views of the registry that the converter and the detector use.
- **Import-time registration** (`registration.dfy`). Each shipped expectation
  module registers itself on the default registry when it is loaded.
  `LoadExpectations` performs these calls in module file name order.
- **Profiler** (`profiler.dfy`). `DataSmellAwareProfiler._profile` resolves the
  registry, then emits one expectation `(expectation_type, {"column": c})` per
  registry entry of the column's type and records each column's type in the
  suite's meta.
- **Result converter** (`converter.dfy`). `StandardResultConverter.convert`
  keeps the validation results whose `success` is exactly `False` and maps
  each one to an `ExtendedDetectionResult`. Every error the Python code can
  raise becomes a `Failure`.
- **Detector** (`detector.dfy`). `GreatExpectationsDetector.detect` chains the
  profiler, the validator and the converter. `DetectorBuilder.build` fills in
  the defaults.
- **Per-row smell predicates**, one module per expectation: casing
  (`casing.dfy`), suspect sign (`suspectsign.dfy`), integer as floating point
  number (`intfloat.dfy`), integer as string (`intstring.dfy`), floating point
  number as string (`floatstring.dfy`), long data value (`longvalue.dfy`),
  extreme value (`extremevalue.dfy`), plus the metadata of the missing value
  and duplicated value smells (`missingvalue.dfy`, `duplicatedvalue.dfy`).
  Each anchored regular expression is written as a string predicate over
  ASCII character classes. `columnmap.dfy` models a column map expectation's
  list of unexpected values.
- **Web helpers** (`views.dfy`, `context_processors.dfy`): `sort_results`,
  `precheck_columns` and `get_initials`.
- **Supporting modules:**
  - `pydict.dfy` models Python's insertion-ordered dict as an association list;
  - `great_expectations.dfy` gives the shapes of the framework values the core exchanges;
  - `core.dfy` holds the library's own data declarations;
  - `ascii.dfy` holds the character classes;
  - `wrappers.dfy` holds `Option` and `Result`.

Some inputs are external and become parameters:
- the default registry (a module-level global);
- column type inference;
- the Great Expectations validator;
- user-supplied profilers.

Assumptions:
- `datasmell.py` defines neither `get_expectation_type_to_data_smell_type_dict`
  nor `get_registered_data_smells`, although `converter.py` and `detector.py`
  call them. The model defines both from the forward map. The reverse index
  maps every registered expectation type to a smell registered with it. When
  one expectation type is registered for two smells, the entry found last in
  column type order and then dict order wins. The registered smells are the
  keys found under any column type.
- The shipped modules are registered in file name order. The order only
  affects the order of each smell dict, which fixes the order in which the
  profiler emits expectations.

## Model

| member | source | states |
|---|---|---|
| PyDict.Get | data_smell_detection/datasmelldetection/detectors/great_expectations/datasmell.py:80 | a lookup succeeds exactly for a present key and returns a value stored under it |
| PyDict.Put | data_smell_detection/datasmelldetection/detectors/great_expectations/datasmell.py:68 | `d[k] = v` on an insertion-ordered dict: the keys become old keys plus `k`, existing keys keep their positions, the length grows only for a new key, and distinct keys stay distinct |
| PyDict.PutGet | data_smell_detection/datasmelldetection/detectors/great_expectations/datasmell.py:68 | after `d[k] = v`, `d[k]` is `v` |
| PyDict.PutOther | data_smell_detection/datasmelldetection/detectors/great_expectations/datasmell.py:68 | `d[k] = v` leaves every other key's lookup unchanged |
| PyDict.PutIdempotent | data_smell_detection/datasmelldetection/detectors/great_expectations/datasmell.py:68 | assigning the same value to the same key twice equals assigning it once |
| PyDict.PutOverwrite | data_smell_detection/datasmelldetection/detectors/great_expectations/datasmell.py:68 | a second assignment to the same key overwrites the first (last write wins) |
| PyDict.PutNew | web_application/argon-dashboard-django/app/views.py:100 | assigning a key not yet present appends the pair at the end |
| PyDict.Values | data_smell_detection/datasmelldetection/detectors/great_expectations/profiler.py:69 | `dict.values()` lists the values in insertion order, one per entry |
| GreatExpectations.TypeName | data_smell_detection/datasmelldetection/detectors/great_expectations/profiler.py:64 | `str(type_)` of a column type: `ProfilerDataType.` followed by the member name |
| GreatExpectations.PandasDataset.GetTableColumns | data_smell_detection/datasmelldetection/detectors/great_expectations/profiler.py:54 | `get_table_columns`: the dataset's column names in order |
| GreatExpectations.AllProfilerDataTypesComplete | data_smell_detection/datasmelldetection/detectors/great_expectations/datasmell.py:56-57 | the enum iteration order used by the registry constructor lists every column type |
| GreatExpectations.SuccessKwarg | data_smell_detection/datasmelldetection/detectors/great_expectations/expectations/expect_column_values_to_not_contain_long_data_value_smell.py:273-276 | a success keyword takes the configuration's value when given, otherwise the expectation's default |
| GreatExpectations.AddExpectation | data_smell_detection/datasmelldetection/detectors/great_expectations/profiler.py:73 | adding an expectation appends it to the suite and keeps the suite's name and meta |
| GreatExpectations.PandasDataset.SetDefaultExpectationArgument | data_smell_detection/datasmelldetection/detectors/great_expectations/profiler.py:51 | sets one default expectation argument and changes nothing else |
| GreatExpectations.PandasDataset.SetConfigValue | data_smell_detection/datasmelldetection/detectors/great_expectations/profiler.py:52 | sets one configuration value and changes nothing else |
| GreatExpectations.PandasDataset.constructor | data_smell_detection/datasmelldetection/detectors/great_expectations/profiler.py:54 | a dataset holds its table columns and starts with no defaults or configuration |
| GreatExpectations.MetricConfiguration.constructor | data_smell_detection/datasmelldetection/detectors/great_expectations/expectations/expect_column_values_to_not_contain_long_data_value_smell.py:282-286 | a metric configuration holds its name and its value kwargs, the latter mutable in place |
| ColumnMap.Unexpected | data_smell_detection/datasmelldetection/detectors/great_expectations/expectations/expect_column_values_to_not_contain_casing_smell.py:77-79 | the values of a column whose row condition is false, in column order, as a column-map expectation lists them |
| ColumnMap.UnexpectedCons | data_smell_detection/datasmelldetection/detectors/great_expectations/expectations/expect_column_values_to_not_contain_casing_smell.py:77-79 | the unexpected list of a column is the first row (if it fails the condition) followed by the unexpected list of the rest |
| ColumnMap.UnexpectedMembers | data_smell_detection/datasmelldetection/detectors/great_expectations/expectations/expect_column_values_to_not_contain_casing_smell.py:77-79 | the unexpected list holds exactly the failing rows, in column order, and no more rows than the column |
| ColumnMap.NothingUnexpected | data_smell_detection/datasmelldetection/detectors/great_expectations/expectations/expect_column_values_to_not_contain_casing_smell.py:77-79 | nothing is unexpected if and only if every row passes the condition |
| ColumnMap.EverythingUnexpected | data_smell_detection/datasmelldetection/detectors/great_expectations/expectations/expect_column_values_to_not_contain_casing_smell.py:77-79 | if no row passes, the unexpected list is the whole column |
| ColumnMap.UnexpectedWeaker | data_smell_detection/datasmelldetection/detectors/great_expectations/expectations/expect_column_values_to_not_contain_casing_smell.py:77-79 | a more permissive condition flags a sub-list of what a stricter one flags |
| Ascii.IsSpace | data_smell_detection/datasmelldetection/detectors/great_expectations/expectations/expect_column_values_to_not_contain_casing_smell.py:26 | `\s` of a `str` pattern on ASCII characters: space, tab to carriage return, and the separators 0x1C to 0x1F |
| Ascii.LowerChar | data_smell_detection/datasmelldetection/detectors/great_expectations/expectations/expect_column_values_to_not_contain_casing_smell.py:40-41 | ASCII lower-casing of one character: the result is never upper case, letters stay letters, and other characters are unchanged |
| Ascii.UpperChar | data_smell_detection/datasmelldetection/detectors/great_expectations/expectations/expect_column_values_to_not_contain_casing_smell.py:45-46 | ASCII upper-casing of one character, symmetric to lower-casing |
| Ascii.Lower | data_smell_detection/datasmelldetection/detectors/great_expectations/expectations/expect_column_values_to_not_contain_casing_smell.py:40-41 | `str.lower` keeps the length |
| Ascii.Upper | data_smell_detection/datasmelldetection/detectors/great_expectations/expectations/expect_column_values_to_not_contain_casing_smell.py:45-46 | `str.upper` keeps the length |
| Ascii.LowerFixedPoint | data_smell_detection/datasmelldetection/detectors/great_expectations/expectations/expect_column_values_to_not_contain_casing_smell.py:40-41 | `word.lower() == word` holds if and only if the word has no upper-case letter |
| Ascii.UpperFixedPoint | data_smell_detection/datasmelldetection/detectors/great_expectations/expectations/expect_column_values_to_not_contain_casing_smell.py:45-46 | `word.upper() == word` holds if and only if the word has no lower-case letter |
| DataSmell.ExpectationTypeToDataSmellType | data_smell_detection/datasmelldetection/detectors/great_expectations/converter.py:125 | the reverse index expectation type to smell type, built from every column type's dict in enum and then dict order |
| DataSmell.RegisteredDataSmells | data_smell_detection/datasmelldetection/detectors/great_expectations/detector.py:129-130 | the union of the smell keys of every column type's dict |
| DataSmell.DataSmellRegistry.Valid | data_smell_detection/datasmelldetection/detectors/great_expectations/datasmell.py:51-57 | the registry has a dict for every column type, each with distinct keys |
| DataSmell.DataSmellRegistry.GetExpectationTypeToDataSmellTypeDict | data_smell_detection/datasmelldetection/detectors/great_expectations/converter.py:125 | the registry's reverse index, as the converter requests it |
| DataSmell.DataSmellRegistry.GetRegisteredDataSmells | data_smell_detection/datasmelldetection/detectors/great_expectations/detector.py:129-130 | the registry's registered smells, as the detector requests them |
| DataSmell.IsAbstract | data_smell_detection/datasmelldetection/detectors/great_expectations/datasmell.py:108-116 | `is_abstract`: the metadata is `None` or the class has abstract methods |
| DataSmell.ErrorMessage | data_smell_detection/datasmelldetection/detectors/great_expectations/datasmell.py:33-43 | the message of each `InvalidExpectationConfigurationError` that validation raises |
| DataSmell.ErrorMessageInjective | data_smell_detection/datasmelldetection/detectors/great_expectations/datasmell.py:33-43 | different errors carry different messages, so a message names its error |
| DataSmell.ValidateConfiguration | data_smell_detection/datasmelldetection/detectors/great_expectations/datasmell.py:25-45 | succeeds with `True` exactly for a configuration whose smell type is set, whose column types are a list or tuple and whose elements are all column types; each failing check yields its own error, in the source's order |
| DataSmell.Attributes | data_smell_detection/datasmelldetection/detectors/great_expectations/datasmell.py:19-22 | the runtime attributes of a typed metadata value: a set-valued `profiler_data_types` is not a list or tuple, while list and tuple forms keep every element |
| DataSmell.TypedMetadataValidation | data_smell_detection/datasmelldetection/detectors/great_expectations/datasmell.py:34-45 | typed metadata passes validation if and only if its column types are given as a list or tuple, so a set is rejected |
| DataSmell.EmptyState | data_smell_detection/datasmelldetection/detectors/great_expectations/datasmell.py:51-57 | the initial state maps every column type to an empty smell dict |
| DataSmell.EmptyStateWellFormed | data_smell_detection/datasmelldetection/detectors/great_expectations/datasmell.py:51-57 | the initial state is well formed (every type present, distinct keys) |
| DataSmell.Registered | data_smell_detection/datasmelldetection/detectors/great_expectations/datasmell.py:67-68 | registering keeps the set of column types |
| DataSmell.RegisteredWellFormed | data_smell_detection/datasmelldetection/detectors/great_expectations/datasmell.py:67-68 | registering keeps the state well formed |
| DataSmell.RegisteredLookup | data_smell_detection/datasmelldetection/detectors/great_expectations/datasmell.py:59-68 | after registering, the smell maps to the expectation type for every listed column type |
| DataSmell.RegisteredFrame | data_smell_detection/datasmelldetection/detectors/great_expectations/datasmell.py:67-68 | registering leaves the dicts of unlisted types untouched and every other smell's entry unchanged |
| DataSmell.RegisteredIdempotent | data_smell_detection/datasmelldetection/detectors/great_expectations/datasmell.py:68 | registering the same pair twice equals registering it once |
| DataSmell.RegisteredOverwrite | data_smell_detection/datasmelldetection/detectors/great_expectations/datasmell.py:68 | re-registering a smell for the same types overwrites the earlier expectation type |
| DataSmell.ExtremeValueFixture | data_smell_detection/tests/detectors/great_expectations/fixtures.py:22-28 | registering the extreme value smell for INT and FLOAT in an empty registry gives exactly one entry for each of them and none for any other type |
| DataSmell.AllEntries | data_smell_detection/datasmelldetection/detectors/great_expectations/converter.py:125 | the flattened registry holds exactly the (smell, expectation type) pairs stored under the listed types |
| DataSmell.Invert | data_smell_detection/datasmelldetection/detectors/great_expectations/converter.py:125 | the reverse index maps exactly the registered expectation types, each to a smell registered with it |
| DataSmell.RegisteredDataSmellsKeys | data_smell_detection/datasmelldetection/detectors/great_expectations/detector.py:129-130 | the registered smells are exactly the keys present in some column type's smell dict |
| DataSmell.RegisteredSmellsAfterRegister | data_smell_detection/datasmelldetection/detectors/great_expectations/datasmell.py:59-68 | registering a smell for at least one type adds exactly that smell to the registered smells |
| DataSmell.DataSmellRegistry.constructor | data_smell_detection/datasmelldetection/detectors/great_expectations/datasmell.py:51-57 | a fresh registry is valid and maps every column type to an empty dict |
| DataSmell.DataSmellRegistry.Register | data_smell_detection/datasmelldetection/detectors/great_expectations/datasmell.py:59-68 | the loop leaves the registry in the state `Registered` describes: each listed type's dict gets the smell mapped to the expectation type |
| DataSmell.DataSmellRegistry.GetSmellDictForProfilerDataType | data_smell_detection/datasmelldetection/detectors/great_expectations/datasmell.py:70-80 | returns the stored dict of that column type, whose keys are distinct |
| DataSmell.RegisterDataSmell | data_smell_detection/datasmelldetection/detectors/great_expectations/datasmell.py:108-146 | registers the class's metadata under its expectation type; with `None` metadata it fails and leaves the registry unchanged |
| Registration.DefaultRegistry | data_smell_detection/datasmelldetection/detectors/great_expectations/datasmell.py:83 | `default_registry` after every shipped expectation module has registered its smell |
| Registration.RegisterAll | data_smell_detection/datasmelldetection/detectors/great_expectations/expectations/expect_column_values_to_not_contain_missing_value_smell.py:35-37 | registering a sequence of expectations keeps the set of column types |
| Registration.RegisterAllWellFormed | data_smell_detection/datasmelldetection/detectors/great_expectations/expectations/expect_column_values_to_not_contain_missing_value_smell.py:35-37 | registering a sequence keeps the registry well formed |
| Registration.RegisterAllFrame | data_smell_detection/datasmelldetection/detectors/great_expectations/expectations/expect_column_values_to_not_contain_missing_value_smell.py:35-37 | a smell's entry for a type is unchanged by registrations that do not list that type for that smell |
| Registration.RegisterAllFinds | data_smell_detection/datasmelldetection/detectors/great_expectations/expectations/expect_column_values_to_not_contain_missing_value_smell.py:35-37 | with distinct smells, every registered expectation is found under each of its listed types |
| Registration.RegisteredOnlyWhereListed | data_smell_detection/tests/detectors/great_expectations/test_datasmell.py:86-90 | a smell absent before stays absent from every type its registrations do not list |
| Registration.ShippedDistinct | data_smell_detection/tests/detectors/great_expectations/test_registration.py:14-18 | the shipped expectations detect pairwise different smells |
| Registration.ShippedRegistered | data_smell_detection/tests/detectors/great_expectations/test_registration.py:14-52 | after loading, each shipped smell is registered under its own expectation type for exactly its listed column types |
| Registration.MissingValueForEveryType | data_smell_detection/tests/detectors/great_expectations/test_registration.py:20-28 | the missing value smell is registered for every column type |
| Registration.SuspectSignForNumericTypes | data_smell_detection/tests/detectors/great_expectations/test_registration.py:30-42 | the suspect sign smell is registered for INT, FLOAT and NUMERIC and for no other type |
| Registration.IntegerAsStringForStrings | data_smell_detection/tests/detectors/great_expectations/test_registration.py:44-52 | the integer as string smell is registered for STRING only |
| Registration.RegisterAllSmells | data_smell_detection/datasmelldetection/detectors/great_expectations/expectations/expect_column_values_to_not_contain_missing_value_smell.py:35-37 | registering a sequence adds exactly the smells of its entries to the registered smells |
| Registration.DefaultRegistrySmells | data_smell_detection/datasmelldetection/detectors/great_expectations/detector.py:129-130 | the default registry's registered smells are exactly the nine shipped ones |
| Registration.EmptyStateSmells | data_smell_detection/tests/detectors/great_expectations/test_datasmell.py:23-28 | a fresh registry has no registered smells |
| Registration.ShippedTypesNonEmpty | data_smell_detection/datasmelldetection/detectors/great_expectations/expectations/expect_column_values_to_not_contain_extreme_value_smell.py:34-37 | every shipped expectation lists at least one column type |
| Registration.LoadExpectations | data_smell_detection/datasmelldetection/detectors/great_expectations/expectations/expect_column_values_to_not_contain_missing_value_smell.py:35-37 | importing the expectation modules registers each shipped expectation in turn on the registry |
| Profiler.ColumnKwargs | data_smell_detection/datasmelldetection/detectors/great_expectations/profiler.py:67 | the kwargs `{"column": column}` every generated expectation gets |
| Profiler.TypesFor | data_smell_detection/datasmelldetection/detectors/great_expectations/profiler.py:62-69 | the expectation types of the column's inferred type, as `expectation_dict.values()` lists them |
| Profiler.Expectations | data_smell_detection/datasmelldetection/detectors/great_expectations/profiler.py:61-73 | the generated configurations: column by column in column order, registry order within a column |
| Profiler.ResolveRegistry | data_smell_detection/datasmelldetection/detectors/great_expectations/profiler.py:43-49 | the default registry is used when the configuration is missing, lacks `registry` or holds a non-registry there; otherwise the given registry is used |
| Profiler.ColumnExpectations | data_smell_detection/datasmelldetection/detectors/great_expectations/profiler.py:66-73 | one expectation per expectation type, in order, each with kwargs exactly `{"column": c}` |
| Profiler.ColumnsMeta | data_smell_detection/datasmelldetection/detectors/great_expectations/profiler.py:57-64 | the column meta has exactly one entry per dataset column |
| Profiler.ExpectationsAppend | data_smell_detection/datasmelldetection/detectors/great_expectations/profiler.py:61-73 | expectations are emitted column by column: profiling `a + b` gives those of `a` followed by those of `b` |
| Profiler.ExpectationCount | data_smell_detection/datasmelldetection/detectors/great_expectations/profiler.py:61-73 | the number of expectations is the sum over the columns of the size of the smell dict of the column's type |
| Profiler.ExpectationOrigin | data_smell_detection/datasmelldetection/detectors/great_expectations/profiler.py:66-72 | every expectation has kwargs exactly `{"column": c}` for a dataset column `c` and a type taken from the smell dict of `c`'s type |
| Profiler.ExpectationCoverage | data_smell_detection/datasmelldetection/detectors/great_expectations/profiler.py:68-73 | every registered expectation type of every column's type appears for that column |
| Profiler.EmptyRegistryNoExpectations | data_smell_detection/tests/detectors/great_expectations/test_profiler.py:367-379 | an empty registry yields no expectations for any dataset |
| Profiler.TypedRunComplete | data_smell_detection/datasmelldetection/detectors/great_expectations/profiler.py:57-64 | the meta-filling loops produce, for each column, exactly `{"type": str(type)}` |
| Profiler.AddColumnExpectations | data_smell_detection/datasmelldetection/detectors/great_expectations/profiler.py:69-73 | the inner loop appends one expectation per registered type of the column and keeps the suite's name and meta |
| Profiler.Profile | data_smell_detection/datasmelldetection/detectors/great_expectations/profiler.py:35-78 | sets `catch_exceptions` and `interactive_evaluation`, and returns the suite named `profiled_expectation_suite` whose expectations are those of the resolved registry, in column and dict order, and whose meta `columns` holds each column's type |
| ProfilerExamples.TwoSmellRegistrySizes | data_smell_detection/tests/detectors/great_expectations/fixtures.py:22-28 | the two-smell registry has one smell for INT, two for FLOAT and none for STRING |
| ProfilerExamples.SixExpectations | data_smell_detection/tests/detectors/great_expectations/test_profiler.py:412-419 | two INT, two FLOAT and one STRING column with smell dicts of sizes 1, 2 and 0 give six expectations |
| ProfilerExamples.SixExpectationsWithTwoSmellRegistry | data_smell_detection/tests/detectors/great_expectations/test_profiler.py:381-419 | the two-smell registry on the five-column dataset gives six expectations |
| ProfilerExamples.EmptyRegistryExample | data_smell_detection/tests/detectors/great_expectations/test_profiler.py:367-379 | the empty registry gives no expectations for the five-column dataset |
| Converter.FilterCallback | data_smell_detection/datasmelldetection/detectors/great_expectations/converter.py:99-110 | `result.success is False` |
| Converter.Retained | data_smell_detection/datasmelldetection/detectors/great_expectations/converter.py:133-135 | the results `filter(self.filter_callback, ...)` yields, in order |
| Converter.ConvertOne | data_smell_detection/datasmelldetection/detectors/great_expectations/converter.py:137-161 | one loop iteration: the element count, unexpected count, column kwarg and partial list must be present, the expectation type must be in the reverse index, the meta must be set and know the column; the detection carries the smell, column, counts, faulty elements, column type and kwargs |
| Converter.ConvertAll | data_smell_detection/datasmelldetection/detectors/great_expectations/converter.py:129-164 | `convert` over a result list: the first error raised, or one detection per retained result, in order |
| Converter.ConvertOneFields | data_smell_detection/datasmelldetection/detectors/great_expectations/converter.py:137-161 | a converted result carries `element_count` and `unexpected_count` as statistics, `kwargs["column"]` as column, the reverse-index smell of its expectation type, the meta column type, the whole kwargs and `partial_unexpected_list` verbatim |
| Converter.UnknownExpectationTypeRaises | data_smell_detection/datasmelldetection/detectors/great_expectations/converter.py:149-150 | an expectation type missing from the reverse index raises instead of being skipped |
| Converter.MetaUnsetRaises | data_smell_detection/datasmelldetection/detectors/great_expectations/converter.py:79-84 | converting a retained result before `meta` was assigned raises |
| Converter.UnknownColumnRaises | data_smell_detection/datasmelldetection/detectors/great_expectations/converter.py:152 | a column missing from `meta["column_types"]` raises |
| Converter.ConvertAllSucceeds | data_smell_detection/datasmelldetection/detectors/great_expectations/converter.py:129-164 | a successful conversion has one entry per retained result, in input order, each the conversion of that result |
| Converter.RetainedMembers | data_smell_detection/datasmelldetection/detectors/great_expectations/converter.py:99-110 | the filter keeps exactly the results whose `success` is `False`, dropping `True` and `None` |
| Converter.NothingRetained | data_smell_detection/datasmelldetection/detectors/great_expectations/converter.py:133-164 | when no result failed, the conversion is the empty list |
| Converter.ConvertAllFailsOnRetained | data_smell_detection/datasmelldetection/detectors/great_expectations/converter.py:137-162 | a failing conversion fails on some retained result, and its error is that of the first retained result whose conversion fails, every earlier retained result converting |
| Converter.ConvertAllStopsAtFailure | data_smell_detection/datasmelldetection/detectors/great_expectations/converter.py:137-162 | once a prefix of the results fails to convert, later results do not change the outcome |
| Converter.StandardResultConverter.constructor | data_smell_detection/datasmelldetection/detectors/great_expectations/converter.py:79-84 | a new converter holds the given registry and has no meta yet |
| Converter.StandardResultConverter.SetRegistry | data_smell_detection/datasmelldetection/detectors/great_expectations/converter.py:94-97 | the registry setter replaces the registry and keeps the meta |
| Converter.StandardResultConverter.SetMeta | data_smell_detection/datasmelldetection/detectors/great_expectations/converter.py:60-62 | the meta setter stores the new meta and keeps the registry |
| Converter.StandardResultConverter.Convert | data_smell_detection/datasmelldetection/detectors/great_expectations/converter.py:112-164 | the loop returns the conversion of the retained results through the registry's reverse index and the current meta, failing on the first result that raises |
| Detector.ProfiledSuite | data_smell_detection/datasmelldetection/detectors/great_expectations/detector.py:108-113 | the suite `profiler.profile` returns for `{"registry": self.registry}`: that of `_profile` for the data smell aware profiler, or the other profiler's own |
| Detector.LiftConversion | data_smell_detection/datasmelldetection/detectors/great_expectations/detector.py:125-127 | the detector returns the converter's results unchanged and passes its errors through |
| Detector.GreatExpectationsDetector.constructor | data_smell_detection/datasmelldetection/detectors/great_expectations/detector.py:40-51 | a detector holds the given context, dataset, profiler, registry and converter |
| Detector.GreatExpectationsDetector.SetContext | data_smell_detection/datasmelldetection/detectors/great_expectations/detector.py:88-91 | the context setter replaces the context only |
| Detector.GreatExpectationsDetector.SetDataset | data_smell_detection/datasmelldetection/detectors/great_expectations/detector.py:58-61 | the dataset setter replaces the dataset only |
| Detector.GreatExpectationsDetector.SetProfiler | data_smell_detection/datasmelldetection/detectors/great_expectations/detector.py:68-71 | the profiler setter replaces the profiler only |
| Detector.GreatExpectationsDetector.SetRegistry | data_smell_detection/datasmelldetection/detectors/great_expectations/detector.py:78-81 | the registry setter replaces the registry only |
| Detector.GreatExpectationsDetector.SetConverter | data_smell_detection/datasmelldetection/detectors/great_expectations/detector.py:102-105 | the converter setter replaces the converter only |
| Detector.GreatExpectationsDetector.Detect | data_smell_detection/datasmelldetection/detectors/great_expectations/detector.py:107-127 | profiles with `{"registry": self.registry}`, validates the suite, sets the converter's meta to `{"column_types": suite.meta["columns"]}` and returns the converter's output; a suite without column meta fails; with the data smell aware profiler the dataset afterwards has `catch_exceptions` set to true and `interactive_evaluation` to false, and another profiler leaves it unchanged |
| Detector.GreatExpectationsDetector.GetSupportedDataSmellTypes | data_smell_detection/datasmelldetection/detectors/great_expectations/detector.py:129-130 | the supported smells are exactly the smells registered for some column type |
| Detector.DetectorBuilder.constructor | data_smell_detection/datasmelldetection/detectors/great_expectations/detector.py:134-150 | a builder holds the context and dataset and no registry, profiler or converter |
| Detector.DetectorBuilder.SetContext | data_smell_detection/datasmelldetection/detectors/great_expectations/detector.py:152-154 | sets the context only and returns the builder itself |
| Detector.DetectorBuilder.SetDataset | data_smell_detection/datasmelldetection/detectors/great_expectations/detector.py:156-158 | sets the dataset only and returns the builder itself |
| Detector.DetectorBuilder.SetRegistry | data_smell_detection/datasmelldetection/detectors/great_expectations/detector.py:160-162 | sets the registry only and returns the builder itself |
| Detector.DetectorBuilder.SetProfiler | data_smell_detection/datasmelldetection/detectors/great_expectations/detector.py:164-166 | sets the profiler only and returns the builder itself |
| Detector.DetectorBuilder.SetConverter | data_smell_detection/datasmelldetection/detectors/great_expectations/detector.py:168-170 | sets the converter only and returns the builder itself |
| Detector.DetectorBuilder.Build | data_smell_detection/datasmelldetection/detectors/great_expectations/detector.py:172-196 | a new detector with the builder's context and dataset, the default registry and a `DataSmellAwareProfiler` when none was set, and the given converter or else a new one over the same resolved registry with no meta |
| Casing.Join | data_smell_detection/datasmelldetection/detectors/great_expectations/expectations/expect_column_values_to_not_contain_casing_smell.py:26 | tokens joined by single spaces, the value that `re.split(r"\s+")` takes apart again (`Casing.SplitJoin`) |
| Casing.Words | data_smell_detection/datasmelldetection/detectors/great_expectations/expectations/expect_column_values_to_not_contain_casing_smell.py:25-34 | the words `_contains_casing_smell` collects: split on whitespace, then each piece's leading letter run, in order |
| Casing.IsAllLowerCase | data_smell_detection/datasmelldetection/detectors/great_expectations/expectations/expect_column_values_to_not_contain_casing_smell.py:40-41 | `word.lower() == word` |
| Casing.IsAllUpperCase | data_smell_detection/datasmelldetection/detectors/great_expectations/expectations/expect_column_values_to_not_contain_casing_smell.py:45-46 | `word.upper() == word` |
| Casing.MixedCaseUpperFirst | data_smell_detection/datasmelldetection/detectors/great_expectations/expectations/expect_column_values_to_not_contain_casing_smell.py:63-69 | `^[A-Z]+[a-z]+[A-Z]+.*$` matches: upper, lower and upper runs from the start, then any characters up to the end or one final newline |
| Casing.MixedCaseLowerFirst | data_smell_detection/datasmelldetection/detectors/great_expectations/expectations/expect_column_values_to_not_contain_casing_smell.py:63-69 | `^[a-z]+[A-Z]+.*$` matches: a lower run and an upper run from the start, then any characters |
| Casing.IsMixedCase | data_smell_detection/datasmelldetection/detectors/great_expectations/expectations/expect_column_values_to_not_contain_casing_smell.py:63-69 | `is_mixed_case`: either alternative of the mixed-case regex matches |
| Casing.HasCasingSmell | data_smell_detection/datasmelldetection/detectors/great_expectations/expectations/expect_column_values_to_not_contain_casing_smell.py:24-70 | `_contains_casing_smell`: enough words, all lower or all upper case, or any mixed-case word |
| Casing.NextSpace | data_smell_detection/datasmelldetection/detectors/great_expectations/expectations/expect_column_values_to_not_contain_casing_smell.py:26 | the first whitespace position: the prefix before it has no whitespace |
| Casing.SkipSpaces | data_smell_detection/datasmelldetection/detectors/great_expectations/expectations/expect_column_values_to_not_contain_casing_smell.py:26 | skips a run of whitespace up to the next non-space character |
| Casing.Split | data_smell_detection/datasmelldetection/detectors/great_expectations/expectations/expect_column_values_to_not_contain_casing_smell.py:26 | `re.split(r"\s+", s)` gives at least one token, no token contains whitespace, and a string without whitespace is its own single token |
| Casing.SplitJoin | data_smell_detection/datasmelldetection/detectors/great_expectations/expectations/expect_column_values_to_not_contain_casing_smell.py:26 | splitting tokens joined by single spaces gives back the tokens |
| Casing.LetterRun | data_smell_detection/datasmelldetection/detectors/great_expectations/expectations/expect_column_values_to_not_contain_casing_smell.py:33 | the length of the maximal leading run of ASCII letters |
| Casing.LeadingLetters | data_smell_detection/datasmelldetection/detectors/great_expectations/expectations/expect_column_values_to_not_contain_casing_smell.py:33 | `re.findall(r"^[a-zA-Z]+", word)` is empty when the word does not start with a letter and otherwise exactly its maximal leading run of letters |
| Casing.WordsOf | data_smell_detection/datasmelldetection/detectors/great_expectations/expectations/expect_column_values_to_not_contain_casing_smell.py:28-34 | each token contributes at most one word, and every word is a non-empty run of letters |
| Casing.ContainsCasingSmell | data_smell_detection/datasmelldetection/detectors/great_expectations/expectations/expect_column_values_to_not_contain_casing_smell.py:24-70 | the loop-based check returns exactly the casing smell predicate |
| Casing.MixedCaseOfLetters | data_smell_detection/datasmelldetection/detectors/great_expectations/expectations/expect_column_values_to_not_contain_casing_smell.py:63-69 | for a word of letters, the mixed-case regex matches if and only if a lower-case letter is immediately followed by an upper-case one |
| Casing.MixedCaseFromPair | data_smell_detection/datasmelldetection/detectors/great_expectations/expectations/expect_column_values_to_not_contain_casing_smell.py:63-69 | a lower-case letter followed by an upper-case one makes a letter word mixed case |
| Casing.LowerCaseOfLetters | data_smell_detection/datasmelldetection/detectors/great_expectations/expectations/expect_column_values_to_not_contain_casing_smell.py:40-49 | a letter word equals its lower (upper) case form if and only if all its letters are lower (upper) case |
| Casing.CasingSmellMeaning | data_smell_detection/datasmelldetection/detectors/great_expectations/expectations/expect_column_values_to_not_contain_casing_smell.py:58-70 | a value has the smell if and only if it has at least `threshold` words that are all lower or all upper case, or some word with a lower-case letter right before an upper-case one |
| Casing.SameCaseFlagged | data_smell_detection/datasmelldetection/detectors/great_expectations/expectations/expect_column_values_to_not_contain_casing_smell.py:58-60 | at least `threshold` words, all lower case, are flagged |
| Casing.MixedCaseFlagged | data_smell_detection/datasmelldetection/detectors/great_expectations/expectations/expect_column_values_to_not_contain_casing_smell.py:63-70 | a mixed-case word is flagged whatever the threshold |
| Casing.NotFlagged | data_smell_detection/datasmelldetection/detectors/great_expectations/expectations/expect_column_values_to_not_contain_casing_smell.py:58-70 | fewer than `threshold` words and no mixed-case word are not flagged |
| Casing.ThresholdMonotone | data_smell_detection/datasmelldetection/detectors/great_expectations/expectations/expect_column_values_to_not_contain_casing_smell.py:58-60 | anything flagged at a threshold is flagged at every smaller threshold |
| Casing.NoWordsNotFlagged | data_smell_detection/datasmelldetection/detectors/great_expectations/expectations/expect_column_values_to_not_contain_casing_smell.py:58-70 | with threshold at least 1, a value without words is not flagged |
| Casing.NotContainsCasingSmell | data_smell_detection/datasmelldetection/detectors/great_expectations/expectations/expect_column_values_to_not_contain_casing_smell.py:72-79 | the column map passes a row if and only if the value has no casing smell |
| CasingExamples.LeadingLettersOf | data_smell_detection/datasmelldetection/detectors/great_expectations/expectations/expect_column_values_to_not_contain_casing_smell.py:33 | a letter word followed by a non-letter contributes exactly that word |
| CasingExamples.WordsOfLetters | data_smell_detection/datasmelldetection/detectors/great_expectations/expectations/expect_column_values_to_not_contain_casing_smell.py:28-34 | tokens made only of letters are their own words |
| CasingExamples.WordsOfJoin | data_smell_detection/datasmelldetection/detectors/great_expectations/expectations/expect_column_values_to_not_contain_casing_smell.py:26-34 | the words of letter tokens joined by spaces are those tokens |
| CasingExamples.WordsNoLetters | data_smell_detection/datasmelldetection/detectors/great_expectations/expectations/expect_column_values_to_not_contain_casing_smell.py:134-140 | a token not starting with a letter has no words |
| CasingExamples.WordsAbcDef | data_smell_detection/datasmelldetection/detectors/great_expectations/expectations/expect_column_values_to_not_contain_casing_smell.py:123 | `"abc def"` has the words `abc` and `def` |
| CasingExamples.WordsAbc | data_smell_detection/datasmelldetection/detectors/great_expectations/expectations/expect_column_values_to_not_contain_casing_smell.py:123 | `"abc"` has the single word `abc` |
| CasingExamples.WordsMixed | data_smell_detection/datasmelldetection/detectors/great_expectations/expectations/expect_column_values_to_not_contain_casing_smell.py:125 | `"AbC"` has the single word `AbC` |
| CasingExamples.WordsThree | data_smell_detection/datasmelldetection/detectors/great_expectations/expectations/expect_column_values_to_not_contain_casing_smell.py:125 | `"abc dEf ghi"` has three words |
| CasingExamples.LowerWordsFlagged | data_smell_detection/datasmelldetection/detectors/great_expectations/expectations/expect_column_values_to_not_contain_casing_smell.py:58-60 | at least `threshold` all-lower-case letter words are flagged |
| CasingExamples.TwoLowerWords | data_smell_detection/datasmelldetection/detectors/great_expectations/expectations/expect_column_values_to_not_contain_casing_smell.py:164-171 | two lower-case words reach threshold 2 |
| CasingExamples.TwoLowerWordsFlagged | data_smell_detection/datasmelldetection/detectors/great_expectations/expectations/expect_column_values_to_not_contain_casing_smell.py:164-171 | `"abc def"` is flagged at the default threshold |
| CasingExamples.OneLowerWordOnly | data_smell_detection/datasmelldetection/detectors/great_expectations/expectations/expect_column_values_to_not_contain_casing_smell.py:154-171 | one lower-case word is flagged at threshold 1 and not at threshold 2 |
| CasingExamples.OneLowerWord | data_smell_detection/datasmelldetection/detectors/great_expectations/expectations/expect_column_values_to_not_contain_casing_smell.py:154-171 | `"abc"` is flagged at threshold 1 and not at the default threshold 2 |
| CasingExamples.MixedWord | data_smell_detection/datasmelldetection/detectors/great_expectations/expectations/expect_column_values_to_not_contain_casing_smell.py:237-245 | the word `AbC` is mixed case whatever the threshold |
| CasingExamples.MixedWordFlagged | data_smell_detection/datasmelldetection/detectors/great_expectations/expectations/expect_column_values_to_not_contain_casing_smell.py:237-245 | `"AbC"` is flagged whatever the threshold |
| CasingExamples.MixedMiddleWord | data_smell_detection/datasmelldetection/detectors/great_expectations/expectations/expect_column_values_to_not_contain_casing_smell.py:237-245 | the words of `"abc dEf ghi"` contain a mixed-case word |
| CasingExamples.MixedSentenceFlagged | data_smell_detection/datasmelldetection/detectors/great_expectations/expectations/expect_column_values_to_not_contain_casing_smell.py:237-245 | `"abc dEf ghi"` is flagged whatever the threshold |
| CasingExamples.IntegerNotFlagged | data_smell_detection/datasmelldetection/detectors/great_expectations/expectations/expect_column_values_to_not_contain_casing_smell.py:135 | `"-1"` is never flagged for a positive threshold |
| CasingExamples.FloatNotFlagged | data_smell_detection/datasmelldetection/detectors/great_expectations/expectations/expect_column_values_to_not_contain_casing_smell.py:137 | `"2.5"` is never flagged for a positive threshold |
| CasingExamples.EmptyNotFlagged | data_smell_detection/datasmelldetection/detectors/great_expectations/expectations/expect_column_values_to_not_contain_casing_smell.py:139 | the empty string is never flagged for a positive threshold |
| CasingExamples.LowerNoPair | data_smell_detection/datasmelldetection/detectors/great_expectations/expectations/expect_column_values_to_not_contain_casing_smell.py:63-70 | a word of lower-case letters contains no lower-case letter followed by an upper-case one |
| CasingExamples.JoinAppend | data_smell_detection/datasmelldetection/detectors/great_expectations/expectations/expect_column_values_to_not_contain_casing_smell.py:26 | joining two non-empty token lists with a space between them equals joining their concatenation |
| CasingExamples.SplitTestSentence | data_smell_detection/datasmelldetection/detectors/great_expectations/expectations/expect_column_values_to_not_contain_casing_smell.py:26 | `"A test sentence which should not be flagged."` splits into its eight space-separated pieces |
| CasingExamples.WordsOfTestSentence | data_smell_detection/datasmelldetection/detectors/great_expectations/expectations/expect_column_values_to_not_contain_casing_smell.py:29-34 | the eight pieces give eight words, the last one without its full stop |
| CasingExamples.TestSentenceWordsNotFlagged | data_smell_detection/datasmelldetection/detectors/great_expectations/expectations/expect_column_values_to_not_contain_casing_smell.py:58-70 | a capitalised first word among lower-case words is neither all-lower, all-upper nor mixed case, for every threshold |
| CasingExamples.TestSentenceNotFlagged | data_smell_detection/datasmelldetection/detectors/great_expectations/expectations/expect_column_values_to_not_contain_casing_smell.py:141-150 | `"A test sentence which should not be flagged."` is never flagged, whatever the threshold |
| CasingExamples.WordsDomain | data_smell_detection/datasmelldetection/detectors/great_expectations/expectations/expect_column_values_to_not_contain_casing_smell.py:29-34 | `"www.gOogle.de"` is one piece whose only word is its leading letter run `www` |
| CasingExamples.DomainNotFlagged | data_smell_detection/datasmelldetection/detectors/great_expectations/expectations/expect_column_values_to_not_contain_casing_smell.py:332-344 | `"www.gOogle.de"` is not flagged at the default threshold 2, although the later letters `gOogle` are mixed case |
| CasingExamples.SplitFileSeparator | data_smell_detection/datasmelldetection/detectors/great_expectations/expectations/expect_column_values_to_not_contain_casing_smell.py:26 | the separator character 0x1C splits `"abc\x1cdef"` into `abc` and `def`, as `\s` does in Python |
| CasingExamples.FileSeparatorFlagged | data_smell_detection/datasmelldetection/detectors/great_expectations/expectations/expect_column_values_to_not_contain_casing_smell.py:24-60 | `"abc\x1cdef"` has two lower-case words and is flagged at the default threshold 2 |
| SuspectSign.Passes | data_smell_detection/datasmelldetection/detectors/great_expectations/expectations/expect_column_values_to_not_contain_suspect_sign_smell.py:32-42 | the per-row condition: `x >= 0` when the low quantile is not negative, else `x <= 0` when the high quantile is not positive, else every row passes |
| SuspectSign.AsNumber | data_smell_detection/datasmelldetection/detectors/great_expectations/expectations/expect_column_values_to_not_contain_suspect_sign_smell.py:61-69 | the numeric view Python uses for `1 - percentile_threshold`: numbers as themselves, booleans as 1 and 0, no number for anything else |
| SuspectSign.PassesColumn | data_smell_detection/datasmelldetection/detectors/great_expectations/expectations/expect_column_values_to_not_contain_suspect_sign_smell.py:30-42 | the column map applies the sign rule to every row |
| SuspectSign.FlaggedMeaning | data_smell_detection/datasmelldetection/detectors/great_expectations/expectations/expect_column_values_to_not_contain_suspect_sign_smell.py:32-42 | a value is flagged if and only if it is negative while the low quantile is non-negative, or positive while the low quantile is negative and the high one is not positive |
| SuspectSign.ZeroNeverFlagged | data_smell_detection/datasmelldetection/detectors/great_expectations/expectations/expect_column_values_to_not_contain_suspect_sign_smell.py:32-42 | zero is never flagged in any branch |
| SuspectSign.BothQuantilesZero | data_smell_detection/datasmelldetection/detectors/great_expectations/expectations/expect_column_values_to_not_contain_suspect_sign_smell.py:32-35 | when both quantiles are zero the first branch wins and only negatives are flagged |
| SuspectSign.FlaggedOneSign | data_smell_detection/datasmelldetection/detectors/great_expectations/expectations/expect_column_values_to_not_contain_suspect_sign_smell.py:32-39 | the flagged values of a column are either all negative or all positive |
| SuspectSign.MixedSignsFlagNothing | data_smell_detection/datasmelldetection/detectors/great_expectations/expectations/expect_column_values_to_not_contain_suspect_sign_smell.py:40-42 | with a negative low and a positive high quantile nothing is flagged |
| SuspectSign.QuantileDependency | data_smell_detection/datasmelldetection/detectors/great_expectations/expectations/expect_column_values_to_not_contain_suspect_sign_smell.py:61-70 | requests the `column.quantile_values` metric over the same domain with quantiles `[p, 1 - p]` and linear relative error; a missing or non-numeric `percentile_threshold` fails |
| SuspectSign.QuantilesOrdered | data_smell_detection/datasmelldetection/detectors/great_expectations/expectations/expect_column_values_to_not_contain_suspect_sign_smell.py:61-69 | for `p <= 0.5` the requested quantiles are in ascending order |
| SuspectSign.DefaultQuantiles | data_smell_detection/datasmelldetection/detectors/great_expectations/expectations/expect_column_values_to_not_contain_suspect_sign_smell.py:257-260 | the default `percentile_threshold` 0.25 requests the quantiles 0.25 and 0.75 |
| SuspectSignExamples.MostlyPositive1 | data_smell_detection/datasmelldetection/detectors/great_expectations/expectations/expect_column_values_to_not_contain_suspect_sign_smell.py:127-135 | with a non-negative low quantile `[-1, 0, ..., 9]` flags only -1 |
| SuspectSignExamples.MostlyPositive2 | data_smell_detection/datasmelldetection/detectors/great_expectations/expectations/expect_column_values_to_not_contain_suspect_sign_smell.py:149-157 | with a non-negative low quantile two negatives are flagged |
| SuspectSignExamples.MostlyNegative1 | data_smell_detection/datasmelldetection/detectors/great_expectations/expectations/expect_column_values_to_not_contain_suspect_sign_smell.py:171-179 | with a negative low and non-positive high quantile `[-8, ..., 1]` flags only 1 |
| SuspectSignExamples.MostlyNegative2 | data_smell_detection/datasmelldetection/detectors/great_expectations/expectations/expect_column_values_to_not_contain_suspect_sign_smell.py:193-201 | with a negative low and non-positive high quantile the two positives are flagged |
| SuspectSignExamples.AllNegative | data_smell_detection/datasmelldetection/detectors/great_expectations/expectations/expect_column_values_to_not_contain_suspect_sign_smell.py:226-233 | an all non-positive column is not flagged |
| SuspectSignExamples.AllPositive | data_smell_detection/datasmelldetection/detectors/great_expectations/expectations/expect_column_values_to_not_contain_suspect_sign_smell.py:215-222 | an all non-negative column is not flagged |
| IntegerAsFloat.Abs | data_smell_detection/datasmelldetection/detectors/great_expectations/expectations/expect_column_values_to_not_contain_integer_as_floating_point_number_smell.py:24 | `abs()` of a real: the value itself when not negative, its negation otherwise |
| IntegerAsFloat.RoundHalfEven | data_smell_detection/datasmelldetection/detectors/great_expectations/expectations/expect_column_values_to_not_contain_integer_as_floating_point_number_smell.py:24 | `round(decimals=0)`: the floor when the fraction is below one half, the next integer above it, and the even neighbour on a tie |
| IntegerAsFloat.Distance | data_smell_detection/datasmelldetection/detectors/great_expectations/expectations/expect_column_values_to_not_contain_integer_as_floating_point_number_smell.py:24 | `abs(x - x.round(decimals=0))`, the distance to the rounded value |
| IntegerAsFloat.Passes | data_smell_detection/datasmelldetection/detectors/great_expectations/expectations/expect_column_values_to_not_contain_integer_as_floating_point_number_smell.py:21-24 | a row passes exactly when its distance to the rounded value is greater than `epsilon` |
| IntegerAsFloat.RoundIsNearest | data_smell_detection/datasmelldetection/detectors/great_expectations/expectations/expect_column_values_to_not_contain_integer_as_floating_point_number_smell.py:21-24 | rounding picks a nearest integer, so the distance is to the nearest integer |
| IntegerAsFloat.DistanceBounds | data_smell_detection/datasmelldetection/detectors/great_expectations/expectations/expect_column_values_to_not_contain_integer_as_floating_point_number_smell.py:21-24 | the distance lies between 0 and 0.5 and is 0 for an integer |
| IntegerAsFloat.DistanceIsMinimum | data_smell_detection/datasmelldetection/detectors/great_expectations/expectations/expect_column_values_to_not_contain_integer_as_floating_point_number_smell.py:21-24 | the distance is the fractional part or one minus it, whichever is at most one half |
| IntegerAsFloat.FlaggedMonotone | data_smell_detection/datasmelldetection/detectors/great_expectations/expectations/expect_column_values_to_not_contain_integer_as_floating_point_number_smell.py:24 | a larger epsilon flags at least the values a smaller one flags |
| IntegerAsFloat.IntegersFlagged | data_smell_detection/datasmelldetection/detectors/great_expectations/expectations/expect_column_values_to_not_contain_integer_as_floating_point_number_smell.py:24 | an exact integer is flagged for every non-negative epsilon, since only a distance above epsilon passes |
| IntegerAsFloat.AllWithinEpsilon | data_smell_detection/datasmelldetection/detectors/great_expectations/expectations/expect_column_values_to_not_contain_integer_as_floating_point_number_smell.py:24 | a column whose values all lie within epsilon of an integer is flagged in full |
| IntegerAsFloat.HalfFlagsEverything | data_smell_detection/datasmelldetection/detectors/great_expectations/expectations/expect_column_values_to_not_contain_integer_as_floating_point_number_smell.py:68-92 | from epsilon 0.5 on every value is flagged |
| IntegerAsFloatExamples.Epsilon015 | data_smell_detection/datasmelldetection/detectors/great_expectations/expectations/expect_column_values_to_not_contain_integer_as_floating_point_number_smell.py:98-105 | with epsilon 0.15 exactly the values at distance 0.1 are flagged |
| IntegerAsFloatExamples.Epsilon005 | data_smell_detection/datasmelldetection/detectors/great_expectations/expectations/expect_column_values_to_not_contain_integer_as_floating_point_number_smell.py:141-149 | with epsilon 0.05 nothing is flagged |
| IntegerAsFloatExamples.Epsilon025 | data_smell_detection/datasmelldetection/detectors/great_expectations/expectations/expect_column_values_to_not_contain_integer_as_floating_point_number_smell.py:83-92 | with epsilon 0.25 the whole column is flagged |
| IntegerAsFloatExamples.Epsilon05 | data_smell_detection/datasmelldetection/detectors/great_expectations/expectations/expect_column_values_to_not_contain_integer_as_floating_point_number_smell.py:68-77 | with epsilon 0.5 the whole column is flagged |
| IntegerAsString.IntegerLiteral | data_smell_detection/datasmelldetection/detectors/great_expectations/expectations/expect_column_values_to_not_contain_integer_as_string_smell.py:137 | the whole string is an optional `+` or `-` followed by one or more digits |
| IntegerAsString.MatchesIntegerRegex | data_smell_detection/datasmelldetection/detectors/great_expectations/expectations/expect_column_values_to_not_contain_integer_as_string_smell.py:137 | `^(?:\+|-)?\d+$` is found: the string is such a literal, or such a literal followed by one final newline |
| IntegerAsString.Passes | data_smell_detection/datasmelldetection/detectors/great_expectations/expectations/expect_column_values_to_not_contain_integer_as_string_smell.py:129-137 | the `not_match_regex` row condition: a row passes exactly when the integer pattern is not found |
| IntegerAsString.Unsigned | data_smell_detection/datasmelldetection/detectors/great_expectations/expectations/expect_column_values_to_not_contain_integer_as_string_smell.py:137 | dropping an optional leading sign removes at most one character |
| IntegerAsString.IntegerLiteralShape | data_smell_detection/datasmelldetection/detectors/great_expectations/expectations/expect_column_values_to_not_contain_integer_as_string_smell.py:137 | a string is an integer literal if and only if it is an optional `+` or `-` followed by at least one digit and nothing else |
| IntegerAsString.MatchedCharacters | data_smell_detection/datasmelldetection/detectors/great_expectations/expectations/expect_column_values_to_not_contain_integer_as_string_smell.py:137 | a matched string has only digits, a sign in front, and at most a final newline |
| IntegerAsString.OtherCharactersPass | data_smell_detection/datasmelldetection/detectors/great_expectations/expectations/expect_column_values_to_not_contain_integer_as_string_smell.py:37-43 | a string with a space, letter, point or comma anywhere is not flagged |
| IntegerAsString.ValidateConfiguration | data_smell_detection/datasmelldetection/detectors/great_expectations/expectations/expect_column_values_to_not_contain_integer_as_string_smell.py:141-144 | a missing configuration fails, and a configuration is accepted if and only if it does not set `regex` |
| IntegerAsString.ValidatedUsesFixedRegex | data_smell_detection/datasmelldetection/detectors/great_expectations/expectations/expect_column_values_to_not_contain_integer_as_string_smell.py:135-139 | an accepted configuration always uses the shipped integer regex |
| IntegerAsStringExamples.FloatsPass | data_smell_detection/datasmelldetection/detectors/great_expectations/expectations/expect_column_values_to_not_contain_integer_as_string_smell.py:50-59 | float strings are not flagged |
| IntegerAsStringExamples.SpacesBeforePass | data_smell_detection/datasmelldetection/detectors/great_expectations/expectations/expect_column_values_to_not_contain_integer_as_string_smell.py:60-69 | integers with leading spaces are not flagged |
| IntegerAsStringExamples.SpacesAfterPass | data_smell_detection/datasmelldetection/detectors/great_expectations/expectations/expect_column_values_to_not_contain_integer_as_string_smell.py:70-79 | integers with trailing spaces are not flagged |
| IntegerAsStringExamples.IntegerInWordPass | data_smell_detection/datasmelldetection/detectors/great_expectations/expectations/expect_column_values_to_not_contain_integer_as_string_smell.py:80-89 | digits inside words are not flagged |
| IntegerAsStringExamples.IntegersCol1 | data_smell_detection/datasmelldetection/detectors/great_expectations/expectations/expect_column_values_to_not_contain_integer_as_string_smell.py:90-100 | `"-2"`, `"5"` and `"0"` are flagged, `"abc"` and `""` are not |
| FloatAsString.FloatLiteral | data_smell_detection/datasmelldetection/detectors/great_expectations/expectations/expect_column_values_to_not_contain_floating_point_number_as_string_smell.py:230 | the whole string is an optional sign, one or more digits, a point and zero or more digits |
| FloatAsString.MatchesFloatRegex | data_smell_detection/datasmelldetection/detectors/great_expectations/expectations/expect_column_values_to_not_contain_floating_point_number_as_string_smell.py:230 | `^(?:\+|-)?\d+\.\d*$` is found: such a literal, or such a literal followed by one final newline |
| FloatAsString.Passes | data_smell_detection/datasmelldetection/detectors/great_expectations/expectations/expect_column_values_to_not_contain_floating_point_number_as_string_smell.py:222-230 | the `not_match_regex` row condition: a row passes exactly when the float pattern is not found |
| FloatAsString.DigitRun | data_smell_detection/datasmelldetection/detectors/great_expectations/expectations/expect_column_values_to_not_contain_floating_point_number_as_string_smell.py:230 | the maximal leading run of digits |
| FloatAsString.FloatOf | data_smell_detection/datasmelldetection/detectors/great_expectations/expectations/expect_column_values_to_not_contain_floating_point_number_as_string_smell.py:230 | an optional sign, one or more digits, a point and any digits form a float literal |
| FloatAsString.FloatLiteralShape | data_smell_detection/datasmelldetection/detectors/great_expectations/expectations/expect_column_values_to_not_contain_floating_point_number_as_string_smell.py:230 | a string is a float literal if and only if it is an optional sign, at least one digit, a `.`, then any number of digits |
| FloatAsString.LiteralCharacters | data_smell_detection/datasmelldetection/detectors/great_expectations/expectations/expect_column_values_to_not_contain_floating_point_number_as_string_smell.py:230 | a float literal has only digits, a leading sign and points |
| FloatAsString.PointPosition | data_smell_detection/datasmelldetection/detectors/great_expectations/expectations/expect_column_values_to_not_contain_floating_point_number_as_string_smell.py:230 | every matched string contains a point |
| FloatAsString.DisjointFromIntegers | data_smell_detection/datasmelldetection/detectors/great_expectations/expectations/expect_column_values_to_not_contain_floating_point_number_as_string_smell.py:70-80 | no string is flagged both as a float and as an integer stored as string |
| FloatAsString.OtherCharactersPass | data_smell_detection/datasmelldetection/detectors/great_expectations/expectations/expect_column_values_to_not_contain_floating_point_number_as_string_smell.py:52-63 | a string with a space, letter or comma anywhere is not flagged |
| FloatAsString.ValidateConfiguration | data_smell_detection/datasmelldetection/detectors/great_expectations/expectations/expect_column_values_to_not_contain_floating_point_number_as_string_smell.py:234-237 | a missing configuration fails, and a configuration is accepted if and only if it does not set `regex` |
| FloatAsString.ValidatedUsesFixedRegex | data_smell_detection/datasmelldetection/detectors/great_expectations/expectations/expect_column_values_to_not_contain_floating_point_number_as_string_smell.py:228-231 | an accepted configuration always uses the shipped float regex |
| FloatAsStringExamples.IntegersPass | data_smell_detection/datasmelldetection/detectors/great_expectations/expectations/expect_column_values_to_not_contain_floating_point_number_as_string_smell.py:70-80 | integer strings are not flagged |
| FloatAsStringExamples.FloatsShort | data_smell_detection/datasmelldetection/detectors/great_expectations/expectations/expect_column_values_to_not_contain_floating_point_number_as_string_smell.py:161-169 | `"3."`-style floats are all flagged |
| FloatAsStringExamples.FloatsLong | data_smell_detection/datasmelldetection/detectors/great_expectations/expectations/expect_column_values_to_not_contain_floating_point_number_as_string_smell.py:171-179 | `"3.14"`-style floats are all flagged |
| FloatAsStringExamples.WrongPointCharacterPass | data_smell_detection/datasmelldetection/detectors/great_expectations/expectations/expect_column_values_to_not_contain_floating_point_number_as_string_smell.py:111-119 | a comma as decimal point is not flagged |
| FloatAsStringExamples.SpacesBeforePass | data_smell_detection/datasmelldetection/detectors/great_expectations/expectations/expect_column_values_to_not_contain_floating_point_number_as_string_smell.py:91-99 | floats with leading spaces are not flagged |
| FloatAsStringExamples.SpacesAfterPass | data_smell_detection/datasmelldetection/detectors/great_expectations/expectations/expect_column_values_to_not_contain_floating_point_number_as_string_smell.py:121-129 | floats with trailing spaces are not flagged |
| FloatAsStringExamples.InWordPass | data_smell_detection/datasmelldetection/detectors/great_expectations/expectations/expect_column_values_to_not_contain_floating_point_number_as_string_smell.py:141-149 | floats inside words are not flagged |
| FloatAsStringExamples.FloatsCol1 | data_smell_detection/datasmelldetection/detectors/great_expectations/expectations/expect_column_values_to_not_contain_floating_point_number_as_string_smell.py:183-192 | `"-2."`, `"5.8"` and `"0.0"` are flagged, `"abc"` and `""` are not |
| LongValue.WordWindow | data_smell_detection/datasmelldetection/detectors/great_expectations/expectations/expect_column_values_to_not_contain_long_data_value_smell.py:277 | the `n` characters from position `i` are all `\w` characters |
| LongValue.HasLongWord | data_smell_detection/datasmelldetection/detectors/great_expectations/expectations/expect_column_values_to_not_contain_long_data_value_smell.py:277 | `re.search(r"\w{n,}", s)`: some window of `n` consecutive characters holds only word characters |
| LongValue.Passes | data_smell_detection/datasmelldetection/detectors/great_expectations/expectations/expect_column_values_to_not_contain_long_data_value_smell.py:275-286 | the row condition of the overridden `not_match_regex` metric: a row passes exactly when it holds no run of `n` word characters |
| LongValue.LengthRegex | data_smell_detection/datasmelldetection/detectors/great_expectations/expectations/expect_column_values_to_not_contain_long_data_value_smell.py:277 | the pattern `\w{` + `str(length_threshold)` + `,}` |
| LongValue.IsNotMatchRegexMetric | data_smell_detection/datasmelldetection/detectors/great_expectations/expectations/expect_column_values_to_not_contain_long_data_value_smell.py:275-283 | `^column_values\.not_match_regex\.` is found in the metric name: the name begins with that prefix |
| LongValue.TrailingRun | data_smell_detection/datasmelldetection/detectors/great_expectations/expectations/expect_column_values_to_not_contain_long_data_value_smell.py:277 | the length of the word-character run at the end of the string |
| LongValue.LongestRun | data_smell_detection/datasmelldetection/detectors/great_expectations/expectations/expect_column_values_to_not_contain_long_data_value_smell.py:277 | the longest run of word characters is at most the string's length |
| LongValue.TrailingRunWords | data_smell_detection/datasmelldetection/detectors/great_expectations/expectations/expect_column_values_to_not_contain_long_data_value_smell.py:277 | the trailing run consists of word characters |
| LongValue.TrailingRunAtLeast | data_smell_detection/datasmelldetection/detectors/great_expectations/expectations/expect_column_values_to_not_contain_long_data_value_smell.py:277 | a word-character suffix is no longer than the trailing run |
| LongValue.WindowWithinRun | data_smell_detection/datasmelldetection/detectors/great_expectations/expectations/expect_column_values_to_not_contain_long_data_value_smell.py:277 | any window of `n` word characters gives a run of at least `n` |
| LongValue.RunHasWindow | data_smell_detection/datasmelldetection/detectors/great_expectations/expectations/expect_column_values_to_not_contain_long_data_value_smell.py:277 | a run of at least `n` word characters contains a window of `n` |
| LongValue.HasLongWordIffRun | data_smell_detection/datasmelldetection/detectors/great_expectations/expectations/expect_column_values_to_not_contain_long_data_value_smell.py:276-277 | `\w{n,}` is found in a string if and only if its longest word-character run has length at least `n` |
| LongValue.ThresholdMonotone | data_smell_detection/datasmelldetection/detectors/great_expectations/expectations/expect_column_values_to_not_contain_long_data_value_smell.py:103-176 | a string flagged at threshold `n + 1` is flagged at `n`, so the flagged set shrinks as the threshold grows |
| LongValue.LongestRunOfWord | data_smell_detection/datasmelldetection/detectors/great_expectations/expectations/expect_column_values_to_not_contain_long_data_value_smell.py:18-24 | a word of word characters is its own longest run |
| LongValue.LongestRunOfBlank | data_smell_detection/datasmelldetection/detectors/great_expectations/expectations/expect_column_values_to_not_contain_long_data_value_smell.py:29-46 | a string without word characters has no run |
| LongValue.LongestRunJoin | data_smell_detection/datasmelldetection/detectors/great_expectations/expectations/expect_column_values_to_not_contain_long_data_value_smell.py:29-78 | joining two strings with a separator gives the longer of their runs |
| LongValue.TrailingRunJoin | data_smell_detection/datasmelldetection/detectors/great_expectations/expectations/expect_column_values_to_not_contain_long_data_value_smell.py:29-78 | after a separator the trailing run is that of the part after it |
| LongValue.DecimalString | data_smell_detection/datasmelldetection/detectors/great_expectations/expectations/expect_column_values_to_not_contain_long_data_value_smell.py:277 | `str(n)` of a natural number is a non-empty digit string without leading zero |
| LongValue.DecimalRoundTrip | data_smell_detection/datasmelldetection/detectors/great_expectations/expectations/expect_column_values_to_not_contain_long_data_value_smell.py:277 | reading back `str(n)` gives `n` |
| LongValue.LengthRegexRoundTrip | data_smell_detection/datasmelldetection/detectors/great_expectations/expectations/expect_column_values_to_not_contain_long_data_value_smell.py:277 | the regex built from the threshold carries exactly that threshold as its repetition bound |
| LongValue.OverrideRegex | data_smell_detection/datasmelldetection/detectors/great_expectations/expectations/expect_column_values_to_not_contain_long_data_value_smell.py:275-286 | the override loop sets `regex` on exactly the metrics whose name begins with `column_values.not_match_regex.` and changes nothing else |
| LongValue.LengthThreshold | data_smell_detection/datasmelldetection/detectors/great_expectations/expectations/expect_column_values_to_not_contain_long_data_value_smell.py:273-276 | the threshold `get_success_kwargs(configuration)["length_threshold"]` resolves to: a result exists exactly when the configured value, or else the default 30, is a Python `int` of at least zero, and it is that `int` |
| LongValue.DefaultThresholdApplies | data_smell_detection/datasmelldetection/detectors/great_expectations/expectations/expect_column_values_to_not_contain_long_data_value_smell.py:256-276 | without a configured `length_threshold`, the default `int` 30 is used |
| LongValue.ConfiguredThresholdApplies | data_smell_detection/datasmelldetection/detectors/great_expectations/expectations/expect_column_values_to_not_contain_long_data_value_smell.py:273-276 | a configured non-negative `int` `length_threshold` is the one used |
| LongValue.FloatThresholdNotModelled | data_smell_detection/datasmelldetection/detectors/great_expectations/expectations/expect_column_values_to_not_contain_long_data_value_smell.py:273-277 | a configured `float` `length_threshold`, whole or not, gives no threshold, since `str()` of a float does not give a repeat count |
| LongValue.DefaultLengthRegex | data_smell_detection/datasmelldetection/detectors/great_expectations/expectations/expect_column_values_to_not_contain_long_data_value_smell.py:256-277 | the default pattern is `\w{30,}` |
| LongValue.GetValidationDependencies | data_smell_detection/datasmelldetection/detectors/great_expectations/expectations/expect_column_values_to_not_contain_long_data_value_smell.py:261-288 | every `column_values.not_match_regex.` metric of the dependencies gets `regex` set to `\w{n,}` for the resolved threshold `n`, names and other metrics unchanged; without a configured threshold that pattern is built from the default 30 |
| LongValueExamples.NoSpacesRuns | data_smell_detection/datasmelldetection/detectors/great_expectations/expectations/expect_column_values_to_not_contain_long_data_value_smell.py:18-24 | the test words have runs of 4, 21, 45, 0 and 30 characters |
| LongValueExamples.NoSpacesThreshold50 | data_smell_detection/datasmelldetection/detectors/great_expectations/expectations/expect_column_values_to_not_contain_long_data_value_smell.py:103-118 | threshold 50 flags nothing in the test column |
| LongValueExamples.NoSpacesThreshold30 | data_smell_detection/datasmelldetection/detectors/great_expectations/expectations/expect_column_values_to_not_contain_long_data_value_smell.py:119-135 | threshold 30 flags the 45- and 30-letter words, so the bound is inclusive |
| LongValueExamples.NoSpacesThreshold20 | data_smell_detection/datasmelldetection/detectors/great_expectations/expectations/expect_column_values_to_not_contain_long_data_value_smell.py:157-176 | threshold 20 flags the 21-, 45- and 30-letter words |
| LongValueExamples.PaddingKeepsRun | data_smell_detection/datasmelldetection/detectors/great_expectations/expectations/expect_column_values_to_not_contain_long_data_value_smell.py:29-87 | padding a long word with spaces and shorter words keeps its run length |
| LongValueExamples.BlankNotFlagged | data_smell_detection/datasmelldetection/detectors/great_expectations/expectations/expect_column_values_to_not_contain_long_data_value_smell.py:29-46 | empty and space-only strings are never flagged for a positive threshold |
| ExtremeValue.GreaterThanZero | data_smell_detection/datasmelldetection/detectors/great_expectations/expectations/expect_column_values_to_not_contain_extreme_value_smell.py:56-58 | Python's `threshold > 0`: compared for numbers and booleans, no answer (the `TypeError`) for strings and `None` |
| ExtremeValue.ValidateConfiguration | data_smell_detection/datasmelldetection/detectors/great_expectations/expectations/expect_column_values_to_not_contain_extreme_value_smell.py:52-58 | a missing configuration or one setting `double_sided` fails; otherwise it is accepted unless a given `threshold` is not positive |
| ExtremeValue.NumericThreshold | data_smell_detection/datasmelldetection/detectors/great_expectations/expectations/expect_column_values_to_not_contain_extreme_value_smell.py:56-58 | a `float` `threshold` is accepted if and only if it is positive |
| ExtremeValue.IntegerThreshold | data_smell_detection/datasmelldetection/detectors/great_expectations/expectations/expect_column_values_to_not_contain_extreme_value_smell.py:56-58 | an `int` `threshold` is accepted if and only if it is positive, and a non-positive one fails with the not-positive error |
| ExtremeValue.DefaultsApply | data_smell_detection/datasmelldetection/detectors/great_expectations/expectations/expect_column_values_to_not_contain_extreme_value_smell.py:46-50 | without `threshold` the configuration is accepted and the defaults 3 and double-sided apply |
| ExtremeValue.ValidatedIsDoubleSided | data_smell_detection/datasmelldetection/detectors/great_expectations/expectations/expect_column_values_to_not_contain_extreme_value_smell.py:46-55 | every accepted configuration is double-sided |
| Views.ResultsFor | web_application/argon-dashboard-django/app/views.py:101-103 | the results listed under a column are results of that column |
| Views.ResultsForConcat | web_application/argon-dashboard-django/app/views.py:101-103 | filtering keeps input order: it distributes over concatenation |
| Views.ResultsForCount | web_application/argon-dashboard-django/app/views.py:101-103 | each result of the column appears as often as in the input, results of other columns never |
| Views.ResultsForPlacement | web_application/argon-dashboard-django/app/views.py:101-103 | an input result is listed under a column if and only if it belongs to that column |
| Views.FillColumn | web_application/argon-dashboard-django/app/views.py:100-103 | the inner loop stores under `c` exactly the results of column `c` |
| Views.SortResults | web_application/argon-dashboard-django/app/views.py:97-104 | the keys are exactly the given columns, each mapped to its results in input order; for distinct columns the dict follows the column order |
| Views.ColumnNames.constructor | web_application/argon-dashboard-django/app/views.py:106 | a column collection holds the given names |
| Views.Prechecked | web_application/argon-dashboard-django/app/views.py:107-108 | the index column `Unnamed: 0` is removed and every other name kept |
| Views.PrecheckedIdempotent | web_application/argon-dashboard-django/app/views.py:106-109 | prechecking twice is prechecking once |
| Views.PrecheckedUnchanged | web_application/argon-dashboard-django/app/views.py:107 | columns without `Unnamed: 0` are unchanged |
| Views.PrecheckColumns | web_application/argon-dashboard-django/app/views.py:106-109 | mutates the given collection into its prechecked form and returns that same collection |
| ContextProcessors.GetInitials | web_application/argon-dashboard-django/app/context_processors.py:3-13 | `dummy_user` gets `-`, any other non-empty name its first character, and only the empty name gets the empty string |
| ContextProcessors.InitialsShape | web_application/argon-dashboard-django/app/context_processors.py:9-10 | initials are one character, a prefix of the user name |
| ContextProcessors.DummyUserPrecedence | web_application/argon-dashboard-django/app/context_processors.py:6-10 | the dummy-user check takes precedence over the first-character rule |

## Left out

- Great Expectations itself is not modelled:
  - executing a suite and the validator;
  - the `mostly` aggregation;
  - the cap on `partial_unexpected_list`;
  - null handling;
  - the z-score metric of the extreme value smell;
  - quantile estimation for the suspect sign smell.

  The validator is a function parameter of `Detect`. The suspect sign rule takes the two quantiles as inputs. The examples' `success` flags, which depend on `mostly`, are not stated. Only their `partial_unexpected_list` is.
- `super().validate_configuration` of the framework is not modelled. Each smell's own checks are modelled after it.
- `_get_column_type`, the profiler's column type inference, is foreign code and is a function parameter.
- `add_expectation` is modelled as appending to the suite. The framework's merging of equal configurations is left out.
- `BasicDatasetProfilerBase.profile`, which wraps `_profile`, is left out. So are the meta entries it adds. `Detect` uses the suite of `_profile` (`Profiler.Profile`) for the data smell aware profiler, and an opaque function value for any other profiler.
- Detector.GreatExpectationsDetector.Detect: the suite's meta is modelled as column name to `{"type": str(type)}`, which is what the profiler stores. The converter reads this entry as the result's column type, so `column_type` is that dict and not a `ProfilerDataType`.
- Profiler.Profile: the suite's meta holds only the `columns` entry. The `great_expectations_version` entry that the framework's `ExpectationSuite` constructor adds is left out, because the model's meta maps to column metadata only.
- DataSmell.DataSmellRegistry.GetSmellDictForProfilerDataType: returns the dict as a value. `get_smell_dict_for_profiler_data_type` hands out the registry's own inner dict, so a caller's change to it would change the registry; that aliasing is not modelled. The profiler only reads the dict.
- DataSmell.IsAbstract: `DataSmell` only annotates `data_smell_metadata` without assigning it. A subclass that never sets it raises `AttributeError` inside `is_abstract`, before `register` runs. The model folds this case into `None` metadata and the `MetadataIsNone` failure of `DataSmell.RegisterDataSmell`. `is_abstract` itself is modelled, but `register_data_smell` ignores its answer, as the source does.
- Converters other than `StandardResultConverter` are not modelled. The abstract base's `__init__`, which `StandardResultConverter` never calls, is left out too, so `meta` starts unset and reading it fails.
- A `column` kwarg that is not a string fails conversion with the unknown-column error.
- The shipped expectation classes declare `profiler_data_types` as Python sets; the model lists each set's members in a fixed order. `validate_configuration` rejects sets (`DataSmell.TypedMetadataValidation`), but registration never calls it.
- The characters `\w`, `\d` and `\s` are modelled for ASCII characters, where they agree with Python's `str` patterns (with 0x1C to 0x1F counted as whitespace). Their meaning for non-ASCII characters, such as `\x85`, `\xa0` or letters outside `a-z` and `A-Z`, is left out.
- Values of the integer as floating point number smell are exact reals. IEEE rounding is left out; numpy's tie rule is modelled but does not affect the distance.
- LongValue.GetValidationDependencies: only a `length_threshold` that is a Python `int` of at least zero is modelled. For anything else, a `float` such as `30.0` included, Python builds the pattern from the value's `str()` (for example `\w{30.0,}`, where `re` reads the brace literally); the model reports `ok` false and changes nothing. A `None` configuration, for which the framework falls back to the expectation's own configuration, is not modelled either; the method takes the configuration.
- LongValueExamples.NoSpacesRuns: the 21-, 30- and 45-letter test words are parameters constrained to be letter words of those lengths, not the literal words.
- `views.sort_results` receives the columns as a sequence, in the order the caller iterates them. `precheck_columns` works on a set of names.
- Profiler tests that exercise `data_smell_configuration`, filtering and per-smell kwargs target a different version of the profiler and are not modelled.
- `DetectorBuilder.set_registry(None)` and similar `None` arguments to the setters are not modelled; the setters take values.
- `dataset.py`, `context.py` (batch requests, CSV import, data contexts), the remaining Django views, forms, models, migrations and URLs, the management command and the JavaScript are I/O or thin wrappers and are not part of this model. The batch request and the data context appear only as values passed through.
- `core/datasmells.py`, `core/detector.py` and `core/dataset.py` are data declarations and abstract interfaces; they appear as datatypes only.
