/**
 * The missing value smell reuses the framework's not-null expectation;
 * the model holds only its registration data and defaults.
 */
module MissingValue {
  import opened Core
  import opened GreatExpectations
  import opened DataSmell

  const ExpectationType: string := "expect_column_values_to_not_contain_missing_value_smell"

  /** The smell applies to every column type. */
  const Metadata: DataSmellMetadata := DataSmellMetadata(MISSING_VALUE_SMELL, AllProfilerDataTypes)

  const DefaultKwargs: Kwargs := map["mostly" := Num(0.95)]
}
