/**
 * What a column-map expectation reports: the values of a column whose
 * per-row condition is false, in column order.
 */
module ColumnMap {

  /** The values of `column` that fail `passes`, in their original order. */
  function Unexpected<T>(column: seq<T>, passes: T -> bool): seq<T> {
    if |column| == 0 then []
    else
      var rest := Unexpected(column[1..], passes);
      if passes(column[0]) then rest else [column[0]] + rest
  }

  /** One step of the report: the first value, if it fails, followed by the report on the rest. */
  lemma UnexpectedCons<T>(x: T, rest: seq<T>, passes: T -> bool)
    ensures Unexpected([x] + rest, passes) == (if passes(x) then [] else [x]) + Unexpected(rest, passes)
  {
    assert ([x] + rest)[1..] == rest;
  }

  /** Exactly the failing values are reported, and no more of them than the column holds. */
  lemma {:induction false} UnexpectedMembers<T>(column: seq<T>, passes: T -> bool)
    ensures |Unexpected(column, passes)| <= |column|
    ensures forall k :: 0 <= k < |Unexpected(column, passes)| ==>
      Unexpected(column, passes)[k] in column && !passes(Unexpected(column, passes)[k])
    ensures forall i :: 0 <= i < |column| && !passes(column[i]) ==> column[i] in Unexpected(column, passes)
  {
    if |column| > 0 {
      UnexpectedMembers(column[1..], passes);
      assert forall i :: 1 <= i < |column| ==> column[i] == column[1..][i - 1];
    }
  }

  /** Every value passes exactly when nothing is reported. */
  lemma {:induction false} NothingUnexpected<T>(column: seq<T>, passes: T -> bool)
    ensures Unexpected(column, passes) == [] <==> forall i :: 0 <= i < |column| ==> passes(column[i])
  {
    if |column| > 0 {
      NothingUnexpected(column[1..], passes);
      assert forall i :: 1 <= i < |column| ==> column[i] == column[1..][i - 1];
    }
  }

  /** When no value passes, the whole column is reported. */
  lemma {:induction false} EverythingUnexpected<T>(column: seq<T>, passes: T -> bool)
    requires forall i :: 0 <= i < |column| ==> !passes(column[i])
    ensures Unexpected(column, passes) == column
  {
    if |column| > 0 {
      assert forall i :: 1 <= i < |column| ==> column[1..][i - 1] == column[i];
      EverythingUnexpected(column[1..], passes);
    }
  }

  /** A condition that lets more values pass reports fewer of them, all among the stricter report. */
  lemma {:induction false} UnexpectedWeaker<T>(column: seq<T>, strict: T -> bool, lax: T -> bool)
    requires forall x :: strict(x) ==> lax(x)
    ensures |Unexpected(column, lax)| <= |Unexpected(column, strict)|
    ensures forall k :: 0 <= k < |Unexpected(column, lax)| ==> Unexpected(column, lax)[k] in Unexpected(column, strict)
  {
    if |column| > 0 {
      UnexpectedWeaker(column[1..], strict, lax);
    }
  }
}
