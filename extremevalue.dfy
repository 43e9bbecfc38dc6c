/**
 * The extreme value smell. The z-score computation belongs to the
 * framework; what the expectation itself adds is its configuration check,
 * its defaults and its registration data.
 */
module ExtremeValue {
  import opened Wrappers
  import opened Core
  import opened GreatExpectations
  import opened DataSmell

  datatype ValidationError =
    | ConfigurationIsNone
    | DoubleSidedCannotBeAltered
    | ThresholdNotPositive
    /** `threshold > 0` raises `TypeError` for a string or `None`. */
    | ThresholdNotComparable

  /** Python's `v > 0`, or `None` where the comparison raises. */
  function GreaterThanZero(v: Value): Option<bool> {
    match v
    case Int(i) => Some(i > 0)
    case Num(x) => Some(x > 0.0)
    case Bool(b) => Some(b)
    case _ => None
  }

  /**
   * `validate_configuration`'s own assertions, in order: a configuration
   * is present, it does not set `double_sided`, and a `threshold` it sets
   * is positive. The framework's inherited checks are not modelled.
   */
  function ValidateConfiguration(configuration: Option<ExpectationConfiguration>): (r: Result<(), ValidationError>)
    ensures configuration.None? ==> r == Failure(ConfigurationIsNone)
    ensures configuration.Some? && "double_sided" in configuration.value.kwargs ==> r == Failure(DoubleSidedCannotBeAltered)
    ensures r.Success? <==>
      && configuration.Some?
      && "double_sided" !in configuration.value.kwargs
      && ("threshold" in configuration.value.kwargs ==> GreaterThanZero(configuration.value.kwargs["threshold"]) == Some(true))
  {
    if configuration.None? then Failure(ConfigurationIsNone)
    else
      var kwargs := configuration.value.kwargs;
      if "double_sided" in kwargs then Failure(DoubleSidedCannotBeAltered)
      else if "threshold" in kwargs then
        match GreaterThanZero(kwargs["threshold"])
        case None => Failure(ThresholdNotComparable)
        case Some(positive) => if positive then Success(()) else Failure(ThresholdNotPositive)
      else Success(())
  }

  const DefaultKwargs: Kwargs := map["threshold" := Int(3), "double_sided" := Bool(true), "catch_exceptions" := Bool(true)]

  /** A numeric threshold is accepted exactly when it is positive. */
  lemma NumericThreshold(configuration: ExpectationConfiguration, x: real)
    requires "double_sided" !in configuration.kwargs
    requires "threshold" in configuration.kwargs && configuration.kwargs["threshold"] == Num(x)
    ensures ValidateConfiguration(Some(configuration)).Success? <==> x > 0.0
    ensures x <= 0.0 ==> ValidateConfiguration(Some(configuration)) == Failure(ThresholdNotPositive)
  {
  }

  /** An `int` threshold is accepted exactly when it is positive. */
  lemma IntegerThreshold(configuration: ExpectationConfiguration, i: int)
    requires "double_sided" !in configuration.kwargs
    requires "threshold" in configuration.kwargs && configuration.kwargs["threshold"] == Int(i)
    ensures ValidateConfiguration(Some(configuration)).Success? <==> i > 0
    ensures i <= 0 ==> ValidateConfiguration(Some(configuration)) == Failure(ThresholdNotPositive)
  {
  }

  /** Without a threshold the configuration is accepted and runs with threshold 3, double-sided. */
  lemma DefaultsApply(configuration: ExpectationConfiguration)
    requires "double_sided" !in configuration.kwargs && "threshold" !in configuration.kwargs
    ensures ValidateConfiguration(Some(configuration)).Success?
    ensures SuccessKwarg(configuration, DefaultKwargs, "threshold") == Int(3)
    ensures SuccessKwarg(configuration, DefaultKwargs, "double_sided") == Bool(true)
  {
  }

  /** A validated configuration is always checked double-sided. */
  lemma ValidatedIsDoubleSided(configuration: ExpectationConfiguration)
    requires ValidateConfiguration(Some(configuration)).Success?
    ensures SuccessKwarg(configuration, DefaultKwargs, "double_sided") == Bool(true)
  {
  }

  const ExpectationType: string := "expect_column_values_to_not_contain_extreme_value_smell"

  const Metadata: DataSmellMetadata := DataSmellMetadata(EXTREME_VALUE_SMELL, [INT, FLOAT, NUMERIC])
}
