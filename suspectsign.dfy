/**
 * The suspect sign smell: in a column whose values are mostly of one sign,
 * a value of the other sign is suspect. The column's `p` and `1 - p`
 * quantiles decide which sign is the majority; the quantiles themselves
 * are computed by the framework and are inputs here.
 */
module SuspectSign {
  import opened Wrappers
  import opened Core
  import opened GreatExpectations
  import opened DataSmell
  import opened ColumnMap

  /**
   * The per-row condition: `column >= 0` when the low quantile is not
   * negative, `column <= 0` when the high quantile is not positive, and
   * `True` for every row otherwise.
   */
  function Passes(low: real, high: real, x: real): bool {
    if low >= 0.0 then x >= 0.0
    else if high <= 0.0 then x <= 0.0
    else true
  }

  /** The condition applied to every row of a column. */
  function PassesColumn(low: real, high: real, column: seq<real>): (r: seq<bool>)
    ensures |r| == |column|
    ensures forall i :: 0 <= i < |column| ==> r[i] == Passes(low, high, column[i])
  {
    seq(|column|, i requires 0 <= i < |column| => Passes(low, high, column[i]))
  }

  /** A value is flagged exactly when its sign is opposite to the majority sign the quantiles show. */
  lemma FlaggedMeaning(low: real, high: real, x: real)
    ensures !Passes(low, high, x) <==> (low >= 0.0 && x < 0.0) || (low < 0.0 && high <= 0.0 && x > 0.0)
  {
  }

  /** Zero is never flagged, whatever the quantiles. */
  lemma ZeroNeverFlagged(low: real, high: real)
    ensures Passes(low, high, 0.0)
  {
  }

  /** When both quantiles are zero the first branch decides: only negative values are flagged. */
  lemma BothQuantilesZero(x: real)
    ensures !Passes(0.0, 0.0, x) <==> x < 0.0
  {
  }

  /** The values flagged in one column all have the same sign. */
  lemma FlaggedOneSign(low: real, high: real, column: seq<real>)
    ensures var flagged := Unexpected(column, x => Passes(low, high, x));
      (forall k :: 0 <= k < |flagged| ==> flagged[k] < 0.0) || (forall k :: 0 <= k < |flagged| ==> flagged[k] > 0.0)
  {
    UnexpectedMembers(column, x => Passes(low, high, x));
  }

  /** Quantiles that straddle zero flag nothing. */
  lemma MixedSignsFlagNothing(low: real, high: real, column: seq<real>)
    requires low < 0.0 < high
    ensures Unexpected(column, x => Passes(low, high, x)) == []
  {
    NothingUnexpected(column, x => Passes(low, high, x));
  }

  // ---------------------------------------------------------------------
  // The quantile dependency
  // ---------------------------------------------------------------------

  /** The `column.quantile_values` metric the condition depends on. */
  datatype QuantileRequest = QuantileRequest(
    metricName: string,
    metricDomainKwargs: Kwargs,
    quantiles: seq<real>,
    allowRelativeError: string)

  datatype DependencyError = MissingPercentileThreshold | NonNumericPercentileThreshold

  /** Python's numeric view of a value: `True` and `False` take part in arithmetic as 1 and 0. */
  function AsNumber(v: Value): Option<real> {
    match v
    case Int(i) => Some(i as real)
    case Num(x) => Some(x)
    case Bool(b) => Some(if b then 1.0 else 0.0)
    case _ => None
  }

  /**
   * `_get_evaluation_dependencies`: the quantiles `[p, 1 - p]` of the
   * metric's `percentile_threshold`, under the metric's own domain. A
   * missing key raises `KeyError`; a string or `None` makes `1 - p` raise.
   */
  function QuantileDependency(metricDomainKwargs: Kwargs, metricValueKwargs: Kwargs): (r: Result<QuantileRequest, DependencyError>)
    ensures "percentile_threshold" !in metricValueKwargs <==> r == Failure(MissingPercentileThreshold)
    ensures r.Success? <==> "percentile_threshold" in metricValueKwargs && AsNumber(metricValueKwargs["percentile_threshold"]).Some?
    ensures r.Success? ==>
      var p := AsNumber(metricValueKwargs["percentile_threshold"]).value;
      && r.value.metricName == "column.quantile_values"
      && r.value.metricDomainKwargs == metricDomainKwargs
      && |r.value.quantiles| == 2
      && r.value.quantiles[0] == p
      && r.value.quantiles[0] + r.value.quantiles[1] == 1.0
      && r.value.allowRelativeError == "linear"
  {
    if "percentile_threshold" !in metricValueKwargs then Failure(MissingPercentileThreshold)
    else
      match AsNumber(metricValueKwargs["percentile_threshold"])
      case None => Failure(NonNumericPercentileThreshold)
      case Some(p) => Success(QuantileRequest("column.quantile_values", metricDomainKwargs, [p, 1.0 - p], "linear"))
  }

  /** A threshold of at most one half asks for a low quantile no larger than the high one. */
  lemma QuantilesOrdered(metricDomainKwargs: Kwargs, p: real)
    requires p <= 0.5
    ensures var r := QuantileDependency(metricDomainKwargs, map["percentile_threshold" := Num(p)]);
      r.Success? && r.value.quantiles[0] <= r.value.quantiles[1]
  {
  }

  const ExpectationType: string := "expect_column_values_to_not_contain_suspect_sign_smell"

  const Metadata: DataSmellMetadata := DataSmellMetadata(SUSPECT_SIGN_SMELL, [INT, FLOAT, NUMERIC])

  const DefaultKwargs: Kwargs := map["percentile_threshold" := Num(0.25), "mostly" := Num(0.95)]

  /** With the default threshold the requested quantiles are the lower and upper quartile. */
  lemma DefaultQuantiles(metricDomainKwargs: Kwargs)
    ensures QuantileDependency(metricDomainKwargs, DefaultKwargs)
         == Success(QuantileRequest("column.quantile_values", metricDomainKwargs, [0.25, 0.75], "linear"))
  {
  }
}

/** The example columns shipped with the suspect sign expectation. */
module SuspectSignExamples {
  import opened ColumnMap
  import opened SuspectSign

  /** `mostly_positive1`: a non-negative low quantile flags only -1. */
  lemma MostlyPositive1(low: real, high: real)
    requires low >= 0.0
    ensures Unexpected([-1.0, 0.0, 1.0, 2.0, 3.0, 4.0, 5.0, 6.0, 8.0, 9.0], x => Passes(low, high, x)) == [-1.0]
  {
  }

  /** `mostly_positive2`: a non-negative low quantile flags -2 and -1. */
  lemma MostlyPositive2(low: real, high: real)
    requires low >= 0.0
    ensures Unexpected([-2.0, -1.0, 0.0, 1.0, 2.0, 3.0, 4.0, 5.0, 6.0, 8.0], x => Passes(low, high, x)) == [-2.0, -1.0]
  {
  }

  /** `mostly_negative1`: a negative low and non-positive high quantile flag only 1. */
  lemma MostlyNegative1(low: real, high: real)
    requires low < 0.0 && high <= 0.0
    ensures Unexpected([-8.0, -7.0, -6.0, -5.0, -4.0, -3.0, -2.0, -1.0, 0.0, 1.0], x => Passes(low, high, x)) == [1.0]
  {
  }

  /** `mostly_negative2`: a negative low and non-positive high quantile flag 1 and 2. */
  lemma MostlyNegative2(low: real, high: real)
    requires low < 0.0 && high <= 0.0
    ensures Unexpected([-7.0, -6.0, -5.0, -4.0, -3.0, -2.0, -1.0, 0.0, 1.0, 2.0], x => Passes(low, high, x)) == [1.0, 2.0]
  {
  }

  /** `all_negative`: whichever branch small quantiles select, nothing is flagged. */
  lemma AllNegative(low: real, high: real)
    requires low < 0.0 && high <= 0.0
    ensures Unexpected([-9.0, -8.0, -7.0, -6.0, -5.0, -4.0, -3.0, -2.0, -1.0, 0.0], x => Passes(low, high, x)) == []
  {
  }

  /** `all_positive`: a non-negative low quantile flags nothing. */
  lemma AllPositive(low: real, high: real)
    requires low >= 0.0
    ensures Unexpected([0.0, 1.0, 2.0, 3.0, 4.0, 5.0, 6.0, 7.0, 8.0, 9.0], x => Passes(low, high, x)) == []
  {
  }
}
