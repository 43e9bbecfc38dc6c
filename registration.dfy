/**
 * Import-time registration: every shipped expectation module calls
 * `register_data_smell` on the default registry when it is loaded.
 */
module Registration {
  import opened Wrappers
  import opened Core
  import opened GreatExpectations
  import opened PyDict
  import opened DataSmell
  import Casing
  import DuplicatedValue
  import ExtremeValue
  import FloatAsString
  import IntegerAsFloat
  import IntegerAsString
  import LongValue
  import MissingValue
  import SuspectSign

  /** One `register_data_smell` call: the class's metadata and expectation type. */
  datatype Entry = Entry(metadata: DataSmellMetadata, expectationType: string)

  /** The shipped expectations, in module file name order. */
  const Shipped: seq<Entry> := [
    Entry(Casing.Metadata, Casing.ExpectationType),
    Entry(DuplicatedValue.Metadata, DuplicatedValue.ExpectationType),
    Entry(ExtremeValue.Metadata, ExtremeValue.ExpectationType),
    Entry(FloatAsString.Metadata, FloatAsString.ExpectationType),
    Entry(IntegerAsFloat.Metadata, IntegerAsFloat.ExpectationType),
    Entry(IntegerAsString.Metadata, IntegerAsString.ExpectationType),
    Entry(LongValue.Metadata, LongValue.ExpectationType),
    Entry(MissingValue.Metadata, MissingValue.ExpectationType),
    Entry(SuspectSign.Metadata, SuspectSign.ExpectationType)
  ]

  /** The registry state after registering `entries` one after another. */
  function RegisterAll(s: RegistryState, entries: seq<Entry>): (r: RegistryState)
    ensures r.Keys == s.Keys
    decreases |entries|
  {
    if entries == [] then s
    else
      var e := entries[0];
      RegisterAll(Registered(s, e.metadata.profilerDataTypes, e.metadata.dataSmellType, e.expectationType), entries[1..])
  }

  /** `default_registry` once every shipped module is loaded. */
  function DefaultRegistry(): RegistryState {
    RegisterAll(EmptyState(), Shipped)
  }

  predicate DistinctSmells(entries: seq<Entry>) {
    forall i, j :: 0 <= i < j < |entries| ==> entries[i].metadata.dataSmellType != entries[j].metadata.dataSmellType
  }

  lemma {:induction false} RegisterAllWellFormed(s: RegistryState, entries: seq<Entry>)
    requires WellFormed(s)
    ensures WellFormed(RegisterAll(s, entries))
    decreases |entries|
  {
    if entries != [] {
      var e := entries[0];
      RegisteredWellFormed(s, e.metadata.profilerDataTypes, e.metadata.dataSmellType, e.expectationType);
      RegisterAllWellFormed(Registered(s, e.metadata.profilerDataTypes, e.metadata.dataSmellType, e.expectationType), entries[1..]);
    }
  }

  /** Entries that do not register `smell` for `t` leave its lookup as it was. */
  lemma {:induction false} RegisterAllFrame(s: RegistryState, entries: seq<Entry>, t: ProfilerDataType, smell: DataSmellType)
    requires WellFormed(s)
    requires forall i :: 0 <= i < |entries| && entries[i].metadata.dataSmellType == smell ==>
               t !in entries[i].metadata.profilerDataTypes
    ensures Get(RegisterAll(s, entries)[t], smell) == Get(s[t], smell)
    decreases |entries|
  {
    if entries != [] {
      var e := entries[0];
      var s' := Registered(s, e.metadata.profilerDataTypes, e.metadata.dataSmellType, e.expectationType);
      RegisteredFrame(s, e.metadata.profilerDataTypes, e.metadata.dataSmellType, e.expectationType, t, smell);
      RegisteredWellFormed(s, e.metadata.profilerDataTypes, e.metadata.dataSmellType, e.expectationType);
      assert Get(s'[t], smell) == Get(s[t], smell) by {
        assert entries[0] == e;
      }
      forall i | 0 <= i < |entries[1..]| && entries[1..][i].metadata.dataSmellType == smell
        ensures t !in entries[1..][i].metadata.profilerDataTypes
      {
        assert entries[1..][i] == entries[i + 1];
      }
      RegisterAllFrame(s', entries[1..], t, smell);
    }
  }

  /** With distinct smells, each entry is found for each of its types after all are registered. */
  lemma {:induction false} RegisterAllFinds(s: RegistryState, entries: seq<Entry>, i: nat, t: ProfilerDataType)
    requires WellFormed(s)
    requires DistinctSmells(entries)
    requires i < |entries| && t in entries[i].metadata.profilerDataTypes
    ensures Get(RegisterAll(s, entries)[t], entries[i].metadata.dataSmellType) == Some(entries[i].expectationType)
    decreases |entries|
  {
    var e := entries[0];
    var s' := Registered(s, e.metadata.profilerDataTypes, e.metadata.dataSmellType, e.expectationType);
    RegisteredWellFormed(s, e.metadata.profilerDataTypes, e.metadata.dataSmellType, e.expectationType);
    var rest := entries[1..];
    if i == 0 {
      RegisteredLookup(s, e.metadata.profilerDataTypes, e.metadata.dataSmellType, e.expectationType, t);
      forall j | 0 <= j < |rest|
        ensures rest[j].metadata.dataSmellType != e.metadata.dataSmellType
      {
        assert rest[j] == entries[j + 1];
      }
      RegisterAllFrame(s', rest, t, e.metadata.dataSmellType);
    } else {
      assert rest[i - 1] == entries[i];
      forall a, b | 0 <= a < b < |rest|
        ensures rest[a].metadata.dataSmellType != rest[b].metadata.dataSmellType
      {
        assert rest[a] == entries[a + 1] && rest[b] == entries[b + 1];
      }
      RegisterAllFinds(s', rest, i - 1, t);
    }
  }

  /** A smell is found for `t` only if some entry registered it for `t`. */
  lemma RegisteredOnlyWhereListed(s: RegistryState, entries: seq<Entry>, t: ProfilerDataType, smell: DataSmellType)
    requires WellFormed(s) && Get(s[t], smell).None?
    requires forall i :: 0 <= i < |entries| && entries[i].metadata.dataSmellType == smell ==>
               t !in entries[i].metadata.profilerDataTypes
    ensures Get(RegisterAll(s, entries)[t], smell).None?
  {
    RegisterAllFrame(s, entries, t, smell);
  }

  lemma ShippedDistinct()
    ensures DistinctSmells(Shipped)
  {
  }

  /** After loading, each shipped smell is registered for exactly its own column types. */
  lemma ShippedRegistered(i: nat, t: ProfilerDataType)
    requires i < |Shipped|
    ensures var found := Get(DefaultRegistry()[t], Shipped[i].metadata.dataSmellType);
            (t in Shipped[i].metadata.profilerDataTypes ==> found == Some(Shipped[i].expectationType))
            && (t !in Shipped[i].metadata.profilerDataTypes ==> found.None?)
  {
    EmptyStateWellFormed();
    ShippedDistinct();
    if t in Shipped[i].metadata.profilerDataTypes {
      RegisterAllFinds(EmptyState(), Shipped, i, t);
    } else {
      var smell := Shipped[i].metadata.dataSmellType;
      forall j | 0 <= j < |Shipped| && Shipped[j].metadata.dataSmellType == smell
        ensures t !in Shipped[j].metadata.profilerDataTypes
      {
        assert j == i;
      }
      RegisterAllFrame(EmptyState(), Shipped, t, smell);
    }
  }

  /** The missing value smell is registered for every column type. */
  lemma MissingValueForEveryType(t: ProfilerDataType)
    ensures Get(DefaultRegistry()[t], MISSING_VALUE_SMELL) == Some("expect_column_values_to_not_contain_missing_value_smell")
  {
    AllProfilerDataTypesComplete();
    ShippedRegistered(7, t);
  }

  /** The suspect sign smell is registered for exactly the numeric column types. */
  lemma SuspectSignForNumericTypes(t: ProfilerDataType)
    ensures Get(DefaultRegistry()[t], SUSPECT_SIGN_SMELL) ==
            (if t in {INT, FLOAT, NUMERIC} then Some("expect_column_values_to_not_contain_suspect_sign_smell") else None)
  {
    assert Shipped[8] == Entry(SuspectSign.Metadata, SuspectSign.ExpectationType);
    assert t in SuspectSign.Metadata.profilerDataTypes <==> t in {INT, FLOAT, NUMERIC};
    ShippedRegistered(8, t);
  }

  /** The integer as string smell is registered for string columns only. */
  lemma IntegerAsStringForStrings(t: ProfilerDataType)
    ensures Get(DefaultRegistry()[t], INTEGER_AS_STRING_SMELL) ==
            (if t == STRING then Some("expect_column_values_to_not_contain_integer_as_string_smell") else None)
  {
    assert Shipped[5] == Entry(IntegerAsString.Metadata, IntegerAsString.ExpectationType);
    assert t in IntegerAsString.Metadata.profilerDataTypes <==> t == STRING;
    ShippedRegistered(5, t);
  }

  /** The smells a list of entries registers. */
  function Smells(entries: seq<Entry>): set<DataSmellType>
    decreases |entries|
  {
    if entries == [] then {} else {entries[0].metadata.dataSmellType} + Smells(entries[1..])
  }

  /** Registering entries that each name at least one type adds exactly their smells. */
  lemma {:induction false} RegisterAllSmells(s: RegistryState, entries: seq<Entry>)
    requires WellFormed(s)
    requires forall i :: 0 <= i < |entries| ==> |entries[i].metadata.profilerDataTypes| > 0
    ensures WellFormed(RegisterAll(s, entries))
    ensures RegisteredDataSmells(RegisterAll(s, entries)) == RegisteredDataSmells(s) + Smells(entries)
    decreases |entries|
  {
    RegisterAllWellFormed(s, entries);
    if entries != [] {
      var e := entries[0];
      var s' := Registered(s, e.metadata.profilerDataTypes, e.metadata.dataSmellType, e.expectationType);
      RegisteredWellFormed(s, e.metadata.profilerDataTypes, e.metadata.dataSmellType, e.expectationType);
      RegisteredSmellsAfterRegister(s, e.metadata.profilerDataTypes, e.metadata.dataSmellType, e.expectationType);
      forall i | 0 <= i < |entries[1..]|
        ensures |entries[1..][i].metadata.profilerDataTypes| > 0
      {
        assert entries[1..][i] == entries[i + 1];
      }
      RegisterAllSmells(s', entries[1..]);
    }
  }

  /** Once loaded, the default registry supports exactly the smells of the shipped expectations. */
  lemma DefaultRegistrySmells()
    ensures WellFormed(DefaultRegistry())
    ensures RegisteredDataSmells(DefaultRegistry()) == Smells(Shipped)
  {
    EmptyStateWellFormed();
    RegisterAllWellFormed(EmptyState(), Shipped);
    ShippedTypesNonEmpty();
    RegisterAllSmells(EmptyState(), Shipped);
    EmptyStateSmells();
  }

  lemma EmptyStateSmells()
    ensures WellFormed(EmptyState()) && RegisteredDataSmells(EmptyState()) == {}
  {
    EmptyStateWellFormed();
  }

  lemma ShippedTypesNonEmpty()
    ensures forall i :: 0 <= i < |Shipped| ==> |Shipped[i].metadata.profilerDataTypes| > 0
  {
  }

  /** Loading the expectation modules: one `register_data_smell` per shipped class. */
  method LoadExpectations(registry: DataSmellRegistry)
    requires registry.Valid()
    modifies registry
    ensures registry.Valid()
    ensures registry.registeredDataSmells == RegisterAll(old(registry.registeredDataSmells), Shipped)
  {
    ghost var s0 := registry.registeredDataSmells;
    var k := 0;
    while k < |Shipped|
      invariant 0 <= k <= |Shipped|
      invariant registry.Valid()
      invariant RegisterAll(s0, Shipped) == RegisterAll(registry.registeredDataSmells, Shipped[k..])
    {
      var e := Shipped[k];
      assert Shipped[k..][0] == e && Shipped[k..][1..] == Shipped[k + 1..];
      var _ := RegisterDataSmell(DataSmellExpectation(e.expectationType, Some(e.metadata), false), registry);
      k := k + 1;
    }
  }
}
