/**
 * The integer-as-floating-point-number smell: a floating point value that
 * lies within `epsilon` of an integer probably stands for that integer.
 * Values are modelled as exact reals.
 */
module IntegerAsFloat {
  import opened Core
  import opened GreatExpectations
  import opened DataSmell
  import opened ColumnMap

  function Abs(x: real): real { if x < 0.0 then -x else x }

  /** `round(decimals=0)`: the nearest integer, ties going to the even neighbour. */
  function RoundHalfEven(x: real): int {
    var f := x.Floor;
    var frac := x - f as real;
    if frac < 0.5 then f
    else if frac > 0.5 then f + 1
    else if f % 2 == 0 then f else f + 1
  }

  /** `abs(x - round(x))`. */
  function Distance(x: real): real {
    Abs(x - RoundHalfEven(x) as real)
  }

  /** The per-row condition: the value is farther than `epsilon` from its rounded value. */
  function Passes(epsilon: real, x: real): bool {
    Distance(x) > epsilon
  }

  /** Rounding picks a nearest integer, so `Distance` is the distance to the nearest integer. */
  lemma RoundIsNearest(x: real, n: int)
    ensures Distance(x) <= Abs(x - n as real)
  {
    var f := x.Floor;
    if n <= f {
      assert x - n as real >= x - f as real;
    } else {
      assert n as real - x >= (f + 1) as real - x;
    }
  }

  /** No value is more than half a unit from its rounded value, and an integer is at distance zero. */
  lemma DistanceBounds(x: real)
    ensures 0.0 <= Distance(x) <= 0.5
    ensures x == x.Floor as real ==> Distance(x) == 0.0
  {
  }

  /** Distance is measured to the closer of the two neighbouring integers. */
  lemma DistanceIsMinimum(x: real)
    ensures var frac := x - x.Floor as real;
      Distance(x) == if frac <= 0.5 then frac else 1.0 - frac
  {
  }

  /** A larger epsilon flags at least the values a smaller one flags. */
  lemma FlaggedMonotone(small: real, large: real, column: seq<real>)
    requires small <= large
    ensures var flaggedSmall, flaggedLarge := Unexpected(column, x => Passes(small, x)), Unexpected(column, x => Passes(large, x));
      forall k :: 0 <= k < |flaggedSmall| ==> flaggedSmall[k] in flaggedLarge
  {
    UnexpectedWeaker(column, x => Passes(large, x), x => Passes(small, x));
  }

  /** An exact integer is flagged for every non-negative epsilon. */
  lemma IntegersFlagged(epsilon: real, n: int)
    requires epsilon >= 0.0
    ensures !Passes(epsilon, n as real)
  {
  }

  /** A column whose values all lie within epsilon of an integer is flagged in full. */
  lemma AllWithinEpsilon(epsilon: real, column: seq<real>)
    requires forall i :: 0 <= i < |column| ==> Distance(column[i]) <= epsilon
    ensures Unexpected(column, x => Passes(epsilon, x)) == column
  {
    EverythingUnexpected(column, x => Passes(epsilon, x));
  }

  /** From epsilon one half on, every value is flagged. */
  lemma HalfFlagsEverything(epsilon: real, column: seq<real>)
    requires epsilon >= 0.5
    ensures Unexpected(column, x => Passes(epsilon, x)) == column
  {
    forall i | 0 <= i < |column| ensures Distance(column[i]) <= epsilon {
      DistanceBounds(column[i]);
    }
    AllWithinEpsilon(epsilon, column);
  }

  const ExpectationType: string := "expect_column_values_to_not_contain_integer_as_floating_point_number_smell"

  const Metadata: DataSmellMetadata := DataSmellMetadata(INTEGER_AS_FLOATING_POINT_NUMBER_SMELL, [FLOAT])

  const DefaultKwargs: Kwargs := map["epsilon" := Num(0.000001), "mostly" := Num(0.1)]
}

/** The example column shipped with the integer-as-float expectation. */
module IntegerAsFloatExamples {
  import opened ColumnMap
  import opened IntegerAsFloat

  const Distance01And02: seq<real> := [-5.8, -5.9, -0.2, -0.1, 0.1, 0.2, 7.8, 7.9, 8.1, 8.2]

  /** With epsilon 0.15 exactly the values at distance 0.1 are flagged. */
  lemma Epsilon015()
    ensures Unexpected(Distance01And02, x => Passes(0.15, x)) == [-5.9, -0.1, 0.1, 7.9, 8.1]
  {
  }

  /** With epsilon 0.05 nothing is flagged. */
  lemma Epsilon005()
    ensures Unexpected(Distance01And02, x => Passes(0.05, x)) == []
  {
  }

  /** With epsilon 0.25 every value is flagged. */
  lemma Epsilon025()
    ensures Unexpected(Distance01And02, x => Passes(0.25, x)) == Distance01And02
  {
    AllWithinEpsilon(0.25, Distance01And02);
  }

  /** With epsilon 0.5 every value is flagged. */
  lemma Epsilon05()
    ensures Unexpected(Distance01And02, x => Passes(0.5, x)) == Distance01And02
  {
    HalfFlagsEverything(0.5, Distance01And02);
  }
}
