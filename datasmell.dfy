/**
 * The data smell registry: for every Great Expectations column type, an
 * insertion-ordered dict from data smell to the expectation type that
 * detects it; plus the metadata each data smell expectation carries and the
 * glue that registers an expectation class.
 */
module DataSmell {
  import opened Wrappers
  import opened Core
  import opened PyDict
  import opened GreatExpectations

  /** Metadata of a data smell expectation, with well-typed fields. */
  datatype DataSmellMetadata = DataSmellMetadata(
    dataSmellType: DataSmellType,
    profilerDataTypes: seq<ProfilerDataType>)

  // ---------------------------------------------------------------------
  // validate_configuration works on whatever the fields were set to at
  // run time, so it is modelled over their dynamic shape.
  // ---------------------------------------------------------------------

  /** A dynamically typed attribute value. */
  datatype AttributeValue =
    | SmellTypeValue(smell: DataSmellType)
    | ProfilerTypeValue(dataType: ProfilerDataType)
    | OtherValue(v: Value)

  /** The `profiler_data_types` field: a list, a tuple, a set, or something that is not a collection. */
  datatype Collection =
    | ListOf(items: seq<AttributeValue>)
    | TupleOf(items: seq<AttributeValue>)
    | SetOf(items: seq<AttributeValue>)
    | NotACollection(value: AttributeValue)

  datatype MetadataAttributes = MetadataAttributes(dataSmellType: AttributeValue, profilerDataTypes: Collection)

  /** Each `InvalidExpectationConfigurationError` that validation can raise. */
  datatype ConfigurationError =
    | DataSmellTypeNotSet
    | ProfilerDataTypesNotListOrTuple
    | InvalidProfilerDataType

  /** The message each error is raised with. */
  function ErrorMessage(e: ConfigurationError): string {
    match e
    case DataSmellTypeNotSet => "The data_smell_type field must be set!"
    case ProfilerDataTypesNotListOrTuple => "The profiler_data_types field must be set to a list or a tuple!"
    case InvalidProfilerDataType => "All elements of profiler_data_types must be valid ProfilerDataType instances!"
  }

  /** The three messages are different, so a message names its error. */
  lemma ErrorMessageInjective(e1: ConfigurationError, e2: ConfigurationError)
    ensures ErrorMessage(e1) == ErrorMessage(e2) ==> e1 == e2
  {
    if e1 != e2 {
      var m1, m2 := ErrorMessage(e1), ErrorMessage(e2);
      assert m1[4] != m2[4] || |m1| != |m2|;
    }
  }

  predicate IsListOrTuple(c: Collection) { c.ListOf? || c.TupleOf? }

  predicate AllProfilerTypes(items: seq<AttributeValue>) {
    forall i :: 0 <= i < |items| ==> items[i].ProfilerTypeValue?
  }

  /** The configuration conditions, all three together. */
  predicate ValidConfiguration(m: MetadataAttributes) {
    m.dataSmellType.SmellTypeValue?
    && IsListOrTuple(m.profilerDataTypes)
    && AllProfilerTypes(m.profilerDataTypes.items)
  }

  /** `DataSmellMetadata.validate_configuration`: the checks run in order and the first failing one raises. */
  method ValidateConfiguration(m: MetadataAttributes) returns (r: Result<bool, ConfigurationError>)
    ensures r.Success? <==> ValidConfiguration(m)
    ensures r.Success? ==> r.value
    ensures !m.dataSmellType.SmellTypeValue? ==> r == Failure(DataSmellTypeNotSet)
    ensures m.dataSmellType.SmellTypeValue? && !IsListOrTuple(m.profilerDataTypes) ==>
              r == Failure(ProfilerDataTypesNotListOrTuple)
    ensures (m.dataSmellType.SmellTypeValue? && IsListOrTuple(m.profilerDataTypes)
             && !AllProfilerTypes(m.profilerDataTypes.items)) ==> r == Failure(InvalidProfilerDataType)
  {
    if !m.dataSmellType.SmellTypeValue? {
      return Failure(DataSmellTypeNotSet);
    }
    if !IsListOrTuple(m.profilerDataTypes) {
      return Failure(ProfilerDataTypesNotListOrTuple);
    }
    var items := m.profilerDataTypes.items;
    var i := 0;
    while i < |items|
      invariant 0 <= i <= |items|
      invariant forall j :: 0 <= j < i ==> items[j].ProfilerTypeValue?
    {
      if !items[i].ProfilerTypeValue? {
        return Failure(InvalidProfilerDataType);
      }
      i := i + 1;
    }
    return Success(true);
  }

  /** How a typed metadata value looks at run time when its type collection is a list, a tuple or a set. */
  datatype CollectionKind = AsList | AsTuple | AsSet

  function Attributes(m: DataSmellMetadata, kind: CollectionKind): (a: MetadataAttributes)
    ensures a.dataSmellType == SmellTypeValue(m.dataSmellType)
    ensures IsListOrTuple(a.profilerDataTypes) <==> kind != AsSet
    ensures !a.profilerDataTypes.NotACollection?
    ensures |a.profilerDataTypes.items| == |m.profilerDataTypes|
    ensures forall i :: 0 <= i < |m.profilerDataTypes| ==>
              a.profilerDataTypes.items[i] == ProfilerTypeValue(m.profilerDataTypes[i])
  {
    var items := seq(|m.profilerDataTypes|, i requires 0 <= i < |m.profilerDataTypes| =>
                       ProfilerTypeValue(m.profilerDataTypes[i]));
    var c := match kind
      case AsList => ListOf(items)
      case AsTuple => TupleOf(items)
      case AsSet => SetOf(items);
    MetadataAttributes(SmellTypeValue(m.dataSmellType), c)
  }

  /** Well-typed metadata validates exactly when its types are held in a list or a tuple; a set is rejected. */
  lemma TypedMetadataValidation(m: DataSmellMetadata, kind: CollectionKind)
    ensures ValidConfiguration(Attributes(m, kind)) <==> kind != AsSet
  {
    var a := Attributes(m, kind);
    forall i | 0 <= i < |a.profilerDataTypes.items|
      ensures a.profilerDataTypes.items[i].ProfilerTypeValue?
    {
      assert a.profilerDataTypes.items[i] == ProfilerTypeValue(m.profilerDataTypes[i]);
    }
  }

  // ---------------------------------------------------------------------
  // The registry state and its specification
  // ---------------------------------------------------------------------

  type SmellDict = Dict<DataSmellType, string>

  type RegistryState = map<ProfilerDataType, SmellDict>

  /** Every column type has a dict, and each dict has distinct keys. */
  ghost predicate WellFormed(s: RegistryState) {
    (forall t: ProfilerDataType :: t in s)
    && (forall t :: t in s ==> DistinctKeys(s[t]))
  }

  /** The state right after construction. */
  function EmptyState(): (s: RegistryState)
    ensures forall t :: t in s && s[t] == []
  {
    AllProfilerDataTypesComplete();
    map t | t in AllProfilerDataTypes :: []
  }

  /** The state after `d[smell] = expectationType` on the dict of every type in `types`. */
  function Registered(s: RegistryState, types: seq<ProfilerDataType>, smell: DataSmellType, expectationType: string): (r: RegistryState)
    ensures r.Keys == s.Keys
  {
    map t | t in s :: if t in types then Put(s[t], smell, expectationType) else s[t]
  }

  lemma EmptyStateWellFormed()
    ensures WellFormed(EmptyState())
  {
  }

  lemma RegisteredWellFormed(s: RegistryState, types: seq<ProfilerDataType>, smell: DataSmellType, e: string)
    requires WellFormed(s)
    ensures WellFormed(Registered(s, types, smell, e))
  {
  }

  /** After registration, every listed type maps the smell to the expectation type. */
  lemma RegisteredLookup(s: RegistryState, types: seq<ProfilerDataType>, smell: DataSmellType, e: string, t: ProfilerDataType)
    requires WellFormed(s)
    requires t in types
    ensures Get(Registered(s, types, smell, e)[t], smell) == Some(e)
  {
    PutGet(s[t], smell, e);
  }

  /** Registration leaves untouched the dicts of unlisted types and the other smells of listed ones. */
  lemma RegisteredFrame(s: RegistryState, types: seq<ProfilerDataType>, smell: DataSmellType, e: string,
                        t: ProfilerDataType, other: DataSmellType)
    requires WellFormed(s)
    ensures t !in types ==> Registered(s, types, smell, e)[t] == s[t]
    ensures other != smell ==> Get(Registered(s, types, smell, e)[t], other) == Get(s[t], other)
  {
    if t in types && other != smell {
      PutOther(s[t], smell, e, other);
    }
  }

  /** Registering for no type changes nothing. */
  lemma RegisteredNothing(s: RegistryState, smell: DataSmellType, e: string)
    ensures Registered(s, [], smell, e) == s
  {
  }

  /** One more iteration of `register`'s loop. */
  lemma RegisteredStep(s: RegistryState, prefix: seq<ProfilerDataType>, t: ProfilerDataType, smell: DataSmellType, e: string)
    requires t in s
    ensures var r := Registered(s, prefix, smell, e);
            Registered(s, prefix + [t], smell, e) == r[t := Put(r[t], smell, e)]
  {
    var r := Registered(s, prefix, smell, e);
    var a := Registered(s, prefix + [t], smell, e);
    var b := r[t := Put(r[t], smell, e)];
    assert a.Keys == b.Keys;
    forall u | u in a
      ensures a[u] == b[u]
    {
      if u == t {
        if t in prefix {
          PutIdempotent(s[t], smell, e);
        }
      } else {
        assert (u in prefix + [t]) == (u in prefix);
      }
    }
  }

  /** Registering the same pair twice is the same as registering it once. */
  lemma RegisteredIdempotent(s: RegistryState, types: seq<ProfilerDataType>, smell: DataSmellType, e: string)
    ensures Registered(Registered(s, types, smell, e), types, smell, e) == Registered(s, types, smell, e)
  {
    var r := Registered(s, types, smell, e);
    forall t | t in s && t in types
      ensures Put(r[t], smell, e) == r[t]
    {
      PutIdempotent(s[t], smell, e);
    }
  }

  /** Re-registering a smell for the same types replaces the old expectation type (last write wins). */
  lemma RegisteredOverwrite(s: RegistryState, types: seq<ProfilerDataType>, smell: DataSmellType, e: string, e': string)
    ensures Registered(Registered(s, types, smell, e), types, smell, e') == Registered(s, types, smell, e')
  {
    forall t | t in s && t in types
      ensures Put(Put(s[t], smell, e), smell, e') == Put(s[t], smell, e')
    {
      PutOverwrite(s[t], smell, e, e');
    }
  }

  /** Registering EXTREME_VALUE_SMELL for (INT, FLOAT) in an empty registry. */
  lemma ExtremeValueFixture()
    ensures var r := Registered(EmptyState(), [INT, FLOAT], EXTREME_VALUE_SMELL,
                                "expect_column_values_to_not_contain_extreme_value_smell");
            && r[INT] == [(EXTREME_VALUE_SMELL, "expect_column_values_to_not_contain_extreme_value_smell")]
            && r[FLOAT] == r[INT]
            && forall t :: t != INT && t != FLOAT ==> r[t] == []
  {
    var e := "expect_column_values_to_not_contain_extreme_value_smell";
    var d: SmellDict := [];
    assert Find(d, EXTREME_VALUE_SMELL) == 0;
    assert Put(d, EXTREME_VALUE_SMELL, e) == [(EXTREME_VALUE_SMELL, e)];
  }

  // ---------------------------------------------------------------------
  // Reverse views of the state (derived; see README)
  // ---------------------------------------------------------------------

  /** The dicts' items, type by type in enum order, each dict in insertion order. */
  function AllEntries(s: RegistryState, types: seq<ProfilerDataType>): (r: seq<(DataSmellType, string)>)
    requires forall t :: t in types ==> t in s
    ensures forall p :: p in r <==> exists t :: t in types && p in s[t]
  {
    if |types| == 0 then []
    else
      var rest := AllEntries(s, types[1..]);
      assert forall t :: t in types <==> t == types[0] || t in types[1..];
      s[types[0]] + rest
  }

  /** Expectation type -> smell over a list of items; a later item overrides an earlier one. */
  function Invert(entries: seq<(DataSmellType, string)>): (r: map<string, DataSmellType>)
    ensures r.Keys == set p | p in entries :: p.1
    ensures forall x :: x in r ==> (r[x], x) in entries
  {
    if |entries| == 0 then map[]
    else
      var last := entries[|entries| - 1];
      var front := entries[..|entries| - 1];
      var m := Invert(front);
      assert forall p :: p in entries <==> p in front || p == last;
      m[last.1 := last.0]
  }

  /** `get_expectation_type_to_data_smell_type_dict` */
  function ExpectationTypeToDataSmellType(s: RegistryState): map<string, DataSmellType>
    requires WellFormed(s)
  {
    Invert(AllEntries(s, AllProfilerDataTypes))
  }

  /** The smells that are keys of the dicts of `types`. */
  function SmellsOf(s: RegistryState, types: seq<ProfilerDataType>): set<DataSmellType>
    requires forall t :: t in types ==> t in s
  {
    if |types| == 0 then {} else Keys(s[types[0]]) + SmellsOf(s, types[1..])
  }

  /** `get_registered_data_smells`: the union of the dicts' keys over all column types. */
  function RegisteredDataSmells(s: RegistryState): set<DataSmellType>
    requires WellFormed(s)
  {
    SmellsOf(s, AllProfilerDataTypes)
  }

  lemma {:induction false} SmellsOfKeys(s: RegistryState, types: seq<ProfilerDataType>, k: DataSmellType)
    requires forall t :: t in types ==> t in s
    ensures k in SmellsOf(s, types) <==> exists t :: t in types && k in Keys(s[t])
    decreases |types|
  {
    if |types| > 0 {
      SmellsOfKeys(s, types[1..], k);
      assert forall t :: t in types <==> t == types[0] || t in types[1..];
    }
  }

  /** The keys of one column type's dict after registration. */
  lemma RegisteredKeys(s: RegistryState, types: seq<ProfilerDataType>, smell: DataSmellType, e: string, t: ProfilerDataType)
    requires t in s
    ensures Keys(Registered(s, types, smell, e)[t]) == if t in types then Keys(s[t]) + {smell} else Keys(s[t])
  {
  }

  /** A smell is registered exactly when some column type's dict has it as a key. */
  lemma RegisteredDataSmellsKeys(s: RegistryState)
    requires WellFormed(s)
    ensures forall k :: k in RegisteredDataSmells(s) <==> exists t :: t in s && k in Keys(s[t])
  {
    AllProfilerDataTypesComplete();
    forall k
      ensures k in RegisteredDataSmells(s) <==> exists t :: t in s && k in Keys(s[t])
    {
      SmellsOfKeys(s, AllProfilerDataTypes, k);
    }
  }

  /** Registration adds `smell` to the keys of the listed types and changes no other key. */
  lemma {:induction false} SmellsOfRegistered(s: RegistryState, types: seq<ProfilerDataType>, smell: DataSmellType, e: string,
                                              ts: seq<ProfilerDataType>)
    requires forall t :: t in ts ==> t in s
    ensures SmellsOf(s, ts) <= SmellsOf(Registered(s, types, smell, e), ts) <= SmellsOf(s, ts) + {smell}
    ensures forall t :: t in ts && t in types ==> smell in SmellsOf(Registered(s, types, smell, e), ts)
    decreases |ts|
  {
    if |ts| > 0 {
      RegisteredKeys(s, types, smell, e, ts[0]);
      SmellsOfRegistered(s, types, smell, e, ts[1..]);
      assert forall t :: t in ts <==> t == ts[0] || t in ts[1..];
    }
  }

  /** Registering for at least one type adds exactly that smell to the registered smells. */
  lemma RegisteredSmellsAfterRegister(s: RegistryState, types: seq<ProfilerDataType>, smell: DataSmellType, e: string)
    requires WellFormed(s)
    requires |types| > 0
    ensures WellFormed(Registered(s, types, smell, e))
    ensures RegisteredDataSmells(Registered(s, types, smell, e)) == RegisteredDataSmells(s) + {smell}
  {
    RegisteredWellFormed(s, types, smell, e);
    AllProfilerDataTypesComplete();
    SmellsOfRegistered(s, types, smell, e, AllProfilerDataTypes);
    assert types[0] in AllProfilerDataTypes;
  }

  // ---------------------------------------------------------------------
  // The registry object
  // ---------------------------------------------------------------------

  /** `DataSmellRegistry` */
  class DataSmellRegistry {
    var registeredDataSmells: RegistryState

    ghost predicate Valid()
      reads this
    {
      WellFormed(registeredDataSmells)
    }

    /** Starts with an empty dict for every column type. */
    constructor ()
      ensures Valid()
      ensures registeredDataSmells == EmptyState()
    {
      var s: RegistryState := map[];
      var i := 0;
      while i < |AllProfilerDataTypes|
        invariant 0 <= i <= |AllProfilerDataTypes|
        invariant s == map t | t in AllProfilerDataTypes[..i] :: []
      {
        assert AllProfilerDataTypes[..i + 1] == AllProfilerDataTypes[..i] + [AllProfilerDataTypes[i]];
        s := s[AllProfilerDataTypes[i] := []];
        i := i + 1;
      }
      assert AllProfilerDataTypes[..i] == AllProfilerDataTypes;
      registeredDataSmells := s;
      EmptyStateWellFormed();
    }

    /** `register`: for each listed type, `dict[type][smell] = expectation_type`. */
    method Register(metadata: DataSmellMetadata, expectationType: string)
      requires Valid()
      modifies this
      ensures Valid()
      ensures registeredDataSmells ==
              Registered(old(registeredDataSmells), metadata.profilerDataTypes, metadata.dataSmellType, expectationType)
    {
      ghost var s0 := registeredDataSmells;
      var types := metadata.profilerDataTypes;
      var smell := metadata.dataSmellType;
      RegisteredNothing(s0, smell, expectationType);
      assert types[..0] == [];
      for i := 0 to |types|
        invariant registeredDataSmells == Registered(s0, types[..i], smell, expectationType)
      {
        var t := types[i];
        ghost var prefix := types[..i];
        assert types[..i + 1] == prefix + [t];
        assert t in s0;
        RegisteredStep(s0, prefix, t, smell, expectationType);
        registeredDataSmells := registeredDataSmells[t := Put(registeredDataSmells[t], smell, expectationType)];
      }
      assert types[..|types|] == types;
      RegisteredWellFormed(s0, types, smell, expectationType);
    }

    /** `get_smell_dict_for_profiler_data_type` */
    function GetSmellDictForProfilerDataType(t: ProfilerDataType): (d: SmellDict)
      reads this
      requires Valid()
      ensures DistinctKeys(d)
      ensures d == registeredDataSmells[t]
    {
      registeredDataSmells[t]
    }

    /** `get_expectation_type_to_data_smell_type_dict` (derived from the forward map). */
    function GetExpectationTypeToDataSmellTypeDict(): map<string, DataSmellType>
      reads this
      requires Valid()
    {
      ExpectationTypeToDataSmellType(registeredDataSmells)
    }

    /** `get_registered_data_smells` (derived from the forward map). */
    function GetRegisteredDataSmells(): set<DataSmellType>
      reads this
      requires Valid()
    {
      RegisteredDataSmells(registeredDataSmells)
    }
  }

  // ---------------------------------------------------------------------
  // Data smell expectation classes
  // ---------------------------------------------------------------------

  /**
   * The class-level attributes of a `DataSmell` subclass: its expectation
   * type, its metadata (possibly `None`) and whether `inspect.isabstract` holds.
   */
  datatype DataSmellExpectation = DataSmellExpectation(
    expectationType: string,
    dataSmellMetadata: Option<DataSmellMetadata>,
    hasAbstractMethods: bool)

  /** `is_abstract` */
  predicate IsAbstract(x: DataSmellExpectation) {
    x.dataSmellMetadata.None? || x.hasAbstractMethods
  }

  /** The `AttributeError` raised when `register` reads a field of `None` metadata. */
  datatype RegistrationError = MetadataIsNone

  /**
   * `register_data_smell`: the abstractness and type checks do nothing, so it
   * is exactly `registry.register(metadata, expectation_type)`, which fails
   * before changing anything when the metadata is `None`.
   */
  method RegisterDataSmell(x: DataSmellExpectation, registry: DataSmellRegistry) returns (r: Result<(), RegistrationError>)
    requires registry.Valid()
    modifies registry
    ensures registry.Valid()
    ensures r.Success? <==> x.dataSmellMetadata.Some?
    ensures x.dataSmellMetadata.None? ==> registry.registeredDataSmells == old(registry.registeredDataSmells)
    ensures x.dataSmellMetadata.Some? ==>
              registry.registeredDataSmells ==
              Registered(old(registry.registeredDataSmells), x.dataSmellMetadata.value.profilerDataTypes,
                         x.dataSmellMetadata.value.dataSmellType, x.expectationType)
  {
    if x.dataSmellMetadata.None? {
      return Failure(MetadataIsNone);
    }
    registry.Register(x.dataSmellMetadata.value, x.expectationType);
    return Success(());
  }
}
