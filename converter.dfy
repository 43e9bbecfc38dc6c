/**
 * `StandardResultConverter`: keeps the validation results whose `success`
 * is exactly `False` and turns each into an extended detection result,
 * looking the smell up in the registry's reverse index and the column type
 * up in the converter's meta information.
 */
module Converter {
  import opened Wrappers
  import opened Core
  import opened GreatExpectations
  import opened DataSmell

  /**
   * `ExtendedDetectionResult`. The column type is whatever the meta
   * information holds for the column; the detector stores there the
   * profiler's per-column dict, so it is kept as a `ColumnMeta`.
   */
  datatype ExtendedDetectionResult = ExtendedDetectionResult(
    detection: DetectionResult,
    columnType: ColumnMeta,
    expectationKwargs: Kwargs)

  /** The converter's `meta` dict; only its `"column_types"` entry is read. */
  type ConverterMeta = map<string, map<string, ColumnMeta>>

  /** The exception `convert` raises, by the line that raises it. */
  datatype ConversionError =
    | MissingElementCount
    | MissingUnexpectedCount
    | MissingColumnKwarg
    | MissingPartialUnexpectedList
    | UnknownExpectationType(expectationType: string)
    /** `self._meta` read before any assignment: `__init__` does not call the base initialiser. */
    | MetaNotSet
    | MissingColumnTypes
    | UnknownColumn(column: Value)

  /** `filter_callback`: `result.success is False`. */
  predicate FilterCallback(result: ExpectationValidationResult) {
    result.success == SuccessFalse
  }

  /** The results `filter(self.filter_callback, ...)` yields, in order. */
  function Retained(results: seq<ExpectationValidationResult>): seq<ExpectationValidationResult>
    decreases |results|
  {
    if results == [] then []
    else
      var last := results[|results| - 1];
      Retained(results[..|results| - 1]) + (if FilterCallback(last) then [last] else [])
  }

  /** The body of `convert`'s loop for one retained result. */
  function ConvertOne(reverseIndex: map<string, DataSmellType>, meta: Option<ConverterMeta>, result: ExpectationValidationResult)
    : (r: Result<ExtendedDetectionResult, ConversionError>)
  {
    var kwargs := result.expectationConfig.kwargs;
    var expectationType := result.expectationConfig.expectationType;
    if result.result.elementCount.None? then Failure(MissingElementCount)
    else if result.result.unexpectedCount.None? then Failure(MissingUnexpectedCount)
    else if "column" !in kwargs then Failure(MissingColumnKwarg)
    else if result.result.partialUnexpectedList.None? then Failure(MissingPartialUnexpectedList)
    else if expectationType !in reverseIndex then Failure(UnknownExpectationType(expectationType))
    else if meta.None? then Failure(MetaNotSet)
    else if "column_types" !in meta.value then Failure(MissingColumnTypes)
    else if !kwargs["column"].Str? || kwargs["column"].s !in meta.value["column_types"] then Failure(UnknownColumn(kwargs["column"]))
    else
      var column := kwargs["column"].s;
      var statistics := DetectionStatistics(result.result.elementCount.value, result.result.unexpectedCount.value);
      Success(ExtendedDetectionResult(
        DetectionResult(reverseIndex[expectationType], column, statistics, result.result.partialUnexpectedList.value),
        meta.value["column_types"][column],
        kwargs))
  }

  /** `convert` over a list of results: the first error raised, or one detection per retained result. */
  function ConvertAll(reverseIndex: map<string, DataSmellType>, meta: Option<ConverterMeta>, results: seq<ExpectationValidationResult>)
    : Result<seq<ExtendedDetectionResult>, ConversionError>
  {
    if results == [] then Success([])
    else
      var front := ConvertAll(reverseIndex, meta, results[..|results| - 1]);
      var last := results[|results| - 1];
      if front.Failure? then front
      else if !FilterCallback(last) then front
      else match ConvertOne(reverseIndex, meta, last)
        case Failure(e) => Failure(e)
        case Success(d) => Success(front.value + [d])
  }

  /** A successful conversion carries over exactly the fields the source copies. */
  lemma ConvertOneFields(reverseIndex: map<string, DataSmellType>, meta: Option<ConverterMeta>, result: ExpectationValidationResult)
    requires ConvertOne(reverseIndex, meta, result).Success?
    ensures var d := ConvertOne(reverseIndex, meta, result).value;
            var kwargs := result.expectationConfig.kwargs;
            && "column" in kwargs && kwargs["column"] == Str(d.detection.columnName)
            && d.expectationKwargs == kwargs
            && Some(d.detection.statistics.totalElementCount) == result.result.elementCount
            && Some(d.detection.statistics.faultyElementCount) == result.result.unexpectedCount
            && Some(d.detection.faultyElements) == result.result.partialUnexpectedList
            && result.expectationConfig.expectationType in reverseIndex
            && d.detection.dataSmellType == reverseIndex[result.expectationConfig.expectationType]
            && meta.Some? && "column_types" in meta.value && d.detection.columnName in meta.value["column_types"]
            && d.columnType == meta.value["column_types"][d.detection.columnName]
  {
  }

  /** An expectation type missing from the reverse index raises rather than being skipped. */
  lemma UnknownExpectationTypeRaises(reverseIndex: map<string, DataSmellType>, meta: Option<ConverterMeta>, result: ExpectationValidationResult)
    requires result.expectationConfig.expectationType !in reverseIndex
    ensures ConvertOne(reverseIndex, meta, result).Failure?
  {
  }

  /** Without meta information, converting any result fails. */
  lemma MetaUnsetRaises(reverseIndex: map<string, DataSmellType>, result: ExpectationValidationResult)
    ensures ConvertOne(reverseIndex, None, result).Failure?
  {
  }

  /** A column absent from `meta["column_types"]` raises. */
  lemma UnknownColumnRaises(reverseIndex: map<string, DataSmellType>, meta: ConverterMeta, result: ExpectationValidationResult, column: string)
    requires "column" in result.expectationConfig.kwargs && result.expectationConfig.kwargs["column"] == Str(column)
    requires "column_types" in meta && column !in meta["column_types"]
    ensures ConvertOne(reverseIndex, Some(meta), result).Failure?
  {
  }

  /**
   * On success there is one detection per retained result, in input order,
   * each the conversion of that result.
   */
  lemma {:induction false} ConvertAllSucceeds(reverseIndex: map<string, DataSmellType>, meta: Option<ConverterMeta>, results: seq<ExpectationValidationResult>)
    requires ConvertAll(reverseIndex, meta, results).Success?
    ensures var out := ConvertAll(reverseIndex, meta, results).value;
            var kept := Retained(results);
            |out| == |kept| &&
            forall k :: 0 <= k < |out| ==> ConvertOne(reverseIndex, meta, kept[k]) == Success(out[k])
    decreases |results|
  {
    if results != [] {
      var front := results[..|results| - 1];
      ConvertAllSucceeds(reverseIndex, meta, front);
      assert Retained(results) == Retained(front) + (if FilterCallback(results[|results| - 1]) then [results[|results| - 1]] else []);
    }
  }

  /** Exactly the results with `success` exactly `False` are retained; `True` and `None` are dropped. */
  lemma {:induction false} RetainedMembers(results: seq<ExpectationValidationResult>)
    ensures forall k :: 0 <= k < |Retained(results)| ==> Retained(results)[k].success == SuccessFalse && Retained(results)[k] in results
    ensures forall i :: 0 <= i < |results| && results[i].success == SuccessFalse ==> results[i] in Retained(results)
    decreases |results|
  {
    if results != [] {
      var front := results[..|results| - 1];
      RetainedMembers(front);
      var kept := Retained(results);
      forall k | 0 <= k < |kept|
        ensures kept[k].success == SuccessFalse && kept[k] in results
      {
        if k < |Retained(front)| {
          assert kept[k] == Retained(front)[k];
          assert kept[k] in front;
        }
      }
      forall i | 0 <= i < |results| && results[i].success == SuccessFalse
        ensures results[i] in kept
      {
        if i < |front| {
          assert results[i] == front[i];
        }
      }
    }
  }

  /** When no result failed, there is nothing to convert and the output is empty. */
  lemma {:induction false} NothingRetained(reverseIndex: map<string, DataSmellType>, meta: Option<ConverterMeta>, results: seq<ExpectationValidationResult>)
    requires forall i :: 0 <= i < |results| ==> results[i].success != SuccessFalse
    ensures Retained(results) == []
    ensures ConvertAll(reverseIndex, meta, results) == Success([])
    decreases |results|
  {
    if results != [] {
      var front := results[..|results| - 1];
      assert forall i :: 0 <= i < |front| ==> front[i] == results[i];
      NothingRetained(reverseIndex, meta, front);
    }
  }

  /** Errors are raised from retained results only: a result that passed never matters. */
  lemma {:induction false} ConvertAllFailsOnRetained(reverseIndex: map<string, DataSmellType>, meta: Option<ConverterMeta>, results: seq<ExpectationValidationResult>)
    requires ConvertAll(reverseIndex, meta, results).Failure?
    ensures exists k :: 0 <= k < |Retained(results)| && ConvertOne(reverseIndex, meta, Retained(results)[k]).Failure?
    ensures exists k :: 0 <= k < |Retained(results)|
              && ConvertOne(reverseIndex, meta, Retained(results)[k]) == Failure(ConvertAll(reverseIndex, meta, results).error)
              && forall j :: 0 <= j < k ==> ConvertOne(reverseIndex, meta, Retained(results)[j]).Success?
    decreases |results|
  {
    var front := results[..|results| - 1];
    var last := results[|results| - 1];
    assert Retained(results) == Retained(front) + (if FilterCallback(last) then [last] else []);
    if ConvertAll(reverseIndex, meta, front).Failure? {
      ConvertAllFailsOnRetained(reverseIndex, meta, front);
      var k :| 0 <= k < |Retained(front)|
               && ConvertOne(reverseIndex, meta, Retained(front)[k]) == Failure(ConvertAll(reverseIndex, meta, front).error)
               && forall j :: 0 <= j < k ==> ConvertOne(reverseIndex, meta, Retained(front)[j]).Success?;
      assert forall j :: 0 <= j <= k ==> Retained(results)[j] == Retained(front)[j];
    } else {
      ConvertAllSucceeds(reverseIndex, meta, front);
      var k := |Retained(front)|;
      assert Retained(results)[k] == last;
      assert forall j :: 0 <= j < k ==> Retained(results)[j] == Retained(front)[j];
    }
  }

  /** `StandardResultConverter` */
  class StandardResultConverter {
    var registry: DataSmellRegistry
    /** `_meta`; `None` until first assigned. */
    var meta: Option<ConverterMeta>

    constructor (registry: DataSmellRegistry)
      ensures this.registry == registry && meta.None?
    {
      this.registry := registry;
      meta := None;
    }

    /** The `registry` setter. */
    method SetRegistry(newRegistry: DataSmellRegistry)
      modifies this
      ensures registry == newRegistry && meta == old(meta)
    {
      registry := newRegistry;
    }

    /** The `meta` setter. */
    method SetMeta(newMeta: ConverterMeta)
      modifies this
      ensures meta == Some(newMeta) && registry == old(registry)
    {
      meta := Some(newMeta);
    }

    /** `convert`: the loop over the retained results, stopping at the first exception. */
    method Convert(results: seq<ExpectationValidationResult>) returns (r: Result<seq<ExtendedDetectionResult>, ConversionError>)
      requires registry.Valid()
      ensures r == ConvertAll(ExpectationTypeToDataSmellType(registry.registeredDataSmells), meta, results)
    {
      var dataSmellTypeDict := registry.GetExpectationTypeToDataSmellTypeDict();
      var detectedDataSmells: seq<ExtendedDetectionResult> := [];
      for i := 0 to |results|
        invariant ConvertAll(dataSmellTypeDict, meta, results[..i]) == Success(detectedDataSmells)
      {
        var validationResult := results[i];
        assert results[..i + 1][..i] == results[..i];
        if FilterCallback(validationResult) {
          var detectionResult := ConvertOne(dataSmellTypeDict, meta, validationResult);
          if detectionResult.Failure? {
            assert ConvertAll(dataSmellTypeDict, meta, results[..i + 1]) == Failure(detectionResult.error);
            ConvertAllStopsAtFailure(dataSmellTypeDict, meta, results, i + 1);
            return Failure(detectionResult.error);
          }
          detectedDataSmells := detectedDataSmells + [detectionResult.value];
        }
      }
      assert results[..|results|] == results;
      return Success(detectedDataSmells);
    }
  }

  /** Once a prefix fails, the whole conversion fails with the same error. */
  lemma {:induction false} ConvertAllStopsAtFailure(reverseIndex: map<string, DataSmellType>, meta: Option<ConverterMeta>,
                                                   results: seq<ExpectationValidationResult>, n: nat)
    requires n <= |results|
    requires ConvertAll(reverseIndex, meta, results[..n]).Failure?
    ensures ConvertAll(reverseIndex, meta, results) == ConvertAll(reverseIndex, meta, results[..n])
    decreases |results| - n
  {
    if n == |results| {
      assert results[..n] == results;
    } else {
      assert results[..|results| - 1][..n] == results[..n];
      ConvertAllStopsAtFailure(reverseIndex, meta, results[..|results| - 1], n);
    }
  }
}
