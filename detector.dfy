/**
 * `GreatExpectationsDetector` and `DetectorBuilder`: the builder fills in
 * defaults, and `detect` runs profiler, validator and converter in turn.
 */
module Detector {
  import opened Wrappers
  import opened Core
  import opened GreatExpectations
  import opened PyDict
  import opened DataSmell
  import opened Profiler
  import opened Converter

  /** A batch request of the data context; only passed through. */
  datatype BatchRequest = BatchRequest(datasourceName: string, dataAssetName: string)

  /** `DatasetWrapper`: the pandas dataset and the batch request it was imported with. */
  datatype GreatExpectationsDataset = GreatExpectationsDataset(dataset: PandasDataset, batchRequest: BatchRequest)

  /** The profiler a detector uses: the data smell aware one, or another given by what it returns. */
  datatype DatasetProfiler =
    | DataSmellAwareProfiler
    | OtherProfiler(profile: (seq<string>, RegistryState) -> ExpectationSuite)

  /** The suite `profiler.profile` returns for the `{"registry": registry}` configuration. */
  function ProfiledSuite(profiler: DatasetProfiler, s: RegistryState, columnType: string -> ProfilerDataType, columns: seq<string>)
    : ExpectationSuite
    requires WellFormed(s)
  {
    match profiler
    case DataSmellAwareProfiler =>
      ExpectationSuite(SuiteName, Expectations(s, columnType, columns), map["columns" := ColumnsMeta(columnType, columns)])
    case OtherProfiler(profile) => profile(columns, s)
  }

  datatype DetectError =
    /** `suite.meta["columns"]` raised `KeyError`. */
    | ColumnsMetaMissing
    | ConversionFailed(error: ConversionError)

  function LiftConversion(r: Result<seq<ExtendedDetectionResult>, ConversionError>): (d: Result<seq<ExtendedDetectionResult>, DetectError>)
    ensures d.Success? <==> r.Success?
    ensures r.Success? ==> d.value == r.value
    ensures r.Failure? ==> d.error == ConversionFailed(r.error)
  {
    match r
    case Success(v) => Success(v)
    case Failure(e) => Failure(ConversionFailed(e))
  }

  class GreatExpectationsDetector {
    var context: DataContext
    var dataset: GreatExpectationsDataset
    var profiler: DatasetProfiler
    var registry: DataSmellRegistry
    var converter: StandardResultConverter

    constructor (context: DataContext, dataset: GreatExpectationsDataset, profiler: DatasetProfiler,
                 registry: DataSmellRegistry, converter: StandardResultConverter)
      ensures this.context == context && this.dataset == dataset && this.profiler == profiler
      ensures this.registry == registry && this.converter == converter
    {
      this.context := context;
      this.dataset := dataset;
      this.profiler := profiler;
      this.registry := registry;
      this.converter := converter;
    }

    /** The `context` property setter. */
    method SetContext(newContext: DataContext)
      modifies this
      ensures context == newContext
      ensures dataset == old(dataset) && profiler == old(profiler) && registry == old(registry) && converter == old(converter)
    {
      context := newContext;
    }

    /** The `dataset` property setter. */
    method SetDataset(newDataset: GreatExpectationsDataset)
      modifies this
      ensures dataset == newDataset
      ensures context == old(context) && profiler == old(profiler) && registry == old(registry) && converter == old(converter)
    {
      dataset := newDataset;
    }

    /** The `profiler` property setter. */
    method SetProfiler(newProfiler: DatasetProfiler)
      modifies this
      ensures profiler == newProfiler
      ensures context == old(context) && dataset == old(dataset) && registry == old(registry) && converter == old(converter)
    {
      profiler := newProfiler;
    }

    /** The `registry` property setter. */
    method SetRegistry(newRegistry: DataSmellRegistry)
      modifies this
      ensures registry == newRegistry
      ensures context == old(context) && dataset == old(dataset) && profiler == old(profiler) && converter == old(converter)
    {
      registry := newRegistry;
    }

    /** The `converter` property setter. */
    method SetConverter(newConverter: StandardResultConverter)
      modifies this
      ensures converter == newConverter
      ensures context == old(context) && dataset == old(dataset) && profiler == old(profiler) && registry == old(registry)
    {
      converter := newConverter;
    }

    /**
     * `detect`. Column-type inference and the Great Expectations validator are
     * parameters; `defaultRegistry` stands for the module-level default.
     */
    method Detect(defaultRegistry: DataSmellRegistry, columnType: string -> ProfilerDataType,
                  validate: (DataContext, BatchRequest, ExpectationSuite) -> seq<ExpectationValidationResult>)
      returns (r: Result<seq<ExtendedDetectionResult>, DetectError>)
      requires registry.Valid() && converter.registry.Valid()
      modifies dataset.dataset, converter
      ensures converter.registry == old(converter.registry)
      ensures profiler.DataSmellAwareProfiler? ==>
                && dataset.dataset.defaultExpectationArguments
                   == old(dataset.dataset.defaultExpectationArguments)["catch_exceptions" := Bool(true)]
                && dataset.dataset.config == old(dataset.dataset.config)["interactive_evaluation" := Bool(false)]
      ensures profiler.OtherProfiler? ==> unchanged(dataset.dataset)
      ensures var suite := ProfiledSuite(profiler, registry.registeredDataSmells, columnType, dataset.dataset.columns);
              var results := validate(context, dataset.batchRequest, suite);
              && ("columns" !in suite.meta ==> r == Failure(ColumnsMetaMissing) && converter.meta == old(converter.meta))
              && ("columns" in suite.meta ==>
                    && converter.meta == Some(map["column_types" := suite.meta["columns"]])
                    && r == LiftConversion(ConvertAll(ExpectationTypeToDataSmellType(converter.registry.registeredDataSmells),
                                                      converter.meta, results)))
    {
      var suite: ExpectationSuite;
      var configuration: ProfilerConfiguration := map["registry" := RegistryValue(registry)];
      match profiler {
        case DataSmellAwareProfiler =>
          suite := Profile(dataset.dataset, Some(configuration), defaultRegistry, columnType);
        case OtherProfiler(profile) =>
          suite := profile(dataset.dataset.columns, registry.registeredDataSmells);
      }

      var validationResult := validate(context, dataset.batchRequest, suite);

      if "columns" !in suite.meta {
        return Failure(ColumnsMetaMissing);
      }
      converter.SetMeta(map["column_types" := suite.meta["columns"]]);
      var detectedSmells := converter.Convert(validationResult);
      return LiftConversion(detectedSmells);
    }

    /** `get_supported_data_smell_types`: a smell is supported iff some column type has it registered. */
    function GetSupportedDataSmellTypes(): (r: set<DataSmellType>)
      reads this, registry
      requires registry.Valid()
      ensures forall smell :: smell in r <==> exists t :: smell in Keys(registry.registeredDataSmells[t])
    {
      RegisteredDataSmellsKeys(registry.registeredDataSmells);
      registry.GetRegisteredDataSmells()
    }
  }

  class DetectorBuilder {
    var context: DataContext
    var dataset: GreatExpectationsDataset
    var registry: Option<DataSmellRegistry>
    var profiler: Option<DatasetProfiler>
    var converter: Option<StandardResultConverter>

    constructor (context: DataContext, dataset: GreatExpectationsDataset)
      ensures this.context == context && this.dataset == dataset
      ensures registry.None? && profiler.None? && converter.None?
    {
      this.context := context;
      this.dataset := dataset;
      registry := None;
      profiler := None;
      converter := None;
    }

    method SetContext(context: DataContext) returns (self: DetectorBuilder)
      modifies this
      ensures self == this && this.context == context
      ensures dataset == old(dataset) && registry == old(registry) && profiler == old(profiler) && converter == old(converter)
    {
      this.context := context;
      return this;
    }

    method SetDataset(dataset: GreatExpectationsDataset) returns (self: DetectorBuilder)
      modifies this
      ensures self == this && this.dataset == dataset
      ensures context == old(context) && registry == old(registry) && profiler == old(profiler) && converter == old(converter)
    {
      this.dataset := dataset;
      return this;
    }

    method SetRegistry(registry: DataSmellRegistry) returns (self: DetectorBuilder)
      modifies this
      ensures self == this && this.registry == Some(registry)
      ensures context == old(context) && dataset == old(dataset) && profiler == old(profiler) && converter == old(converter)
    {
      this.registry := Some(registry);
      return this;
    }

    method SetProfiler(profiler: DatasetProfiler) returns (self: DetectorBuilder)
      modifies this
      ensures self == this && this.profiler == Some(profiler)
      ensures context == old(context) && dataset == old(dataset) && registry == old(registry) && converter == old(converter)
    {
      this.profiler := Some(profiler);
      return this;
    }

    method SetConverter(converter: StandardResultConverter) returns (self: DetectorBuilder)
      modifies this
      ensures self == this && this.converter == Some(converter)
      ensures context == old(context) && dataset == old(dataset) && registry == old(registry) && profiler == old(profiler)
    {
      this.converter := Some(converter);
      return this;
    }

    /**
     * `build`: the default registry, the data smell aware profiler and a
     * standard converter over the resolved registry stand in for unset parts.
     */
    method Build(defaultRegistry: DataSmellRegistry) returns (detector: GreatExpectationsDetector)
      ensures fresh(detector)
      ensures detector.context == context && detector.dataset == dataset
      ensures detector.registry == registry.GetOr(defaultRegistry)
      ensures detector.profiler == profiler.GetOr(DataSmellAwareProfiler)
      ensures converter.Some? ==> detector.converter == converter.value
      ensures converter.None? ==> fresh(detector.converter) && detector.converter.registry == detector.registry && detector.converter.meta.None?
    {
      var registry := this.registry.GetOr(defaultRegistry);
      var profiler := this.profiler.GetOr(DataSmellAwareProfiler);
      var converter: StandardResultConverter;
      if this.converter.None? {
        converter := new StandardResultConverter(registry);
      } else {
        converter := this.converter.value;
      }
      detector := new GreatExpectationsDetector(context, dataset, profiler, registry, converter);
    }
  }
}
