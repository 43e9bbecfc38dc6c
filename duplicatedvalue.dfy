/**
 * The duplicated value smell reuses the framework's uniqueness
 * expectation; the model holds only its registration data.
 */
module DuplicatedValue {
  import opened Core
  import opened GreatExpectations
  import opened DataSmell

  const ExpectationType: string := "expect_column_values_to_not_contain_duplicated_value_smell"

  const Metadata: DataSmellMetadata := DataSmellMetadata(DUPLICATED_VALUE_SMELL, [STRING, INT])
}
