/**
 * The two collection helpers of the web application's result view:
 * grouping detection results by column and dropping the pandas index column.
 */
module Views {
  import opened Wrappers
  import opened Core
  import opened PyDict

  /** The results whose column is `c`, in input order. */
  function ResultsFor(results: seq<DetectionResult>, c: string): (r: seq<DetectionResult>)
    ensures |r| <= |results|
    ensures forall x :: x in r ==> x in results && x.columnName == c
  {
    if |results| == 0 then []
    else
      var front := ResultsFor(results[..|results| - 1], c);
      var last := results[|results| - 1];
      if last.columnName == c then front + [last] else front
  }

  /** Grouping distributes over concatenation, so the input order is kept. */
  lemma {:induction false} ResultsForConcat(a: seq<DetectionResult>, b: seq<DetectionResult>, c: string)
    ensures ResultsFor(a + b, c) == ResultsFor(a, c) + ResultsFor(b, c)
    decreases |b|
  {
    if |b| == 0 {
      assert a + b == a;
    } else {
      var b' := b[..|b| - 1];
      assert (a + b)[..|a + b| - 1] == a + b';
      assert (a + b)[|a + b| - 1] == b[|b| - 1];
      ResultsForConcat(a, b', c);
    }
  }

  /** Each result is listed under its own column as often as it occurs, and under no other column. */
  lemma {:induction false} ResultsForCount(results: seq<DetectionResult>, c: string, x: DetectionResult)
    ensures multiset(ResultsFor(results, c))[x] == if x.columnName == c then multiset(results)[x] else 0
    decreases |results|
  {
    if |results| > 0 {
      var front := results[..|results| - 1];
      var last := results[|results| - 1];
      assert results == front + [last];
      ResultsForCount(front, c, x);
    }
  }

  /** A result of the input is listed under `c` exactly when its column is `c`. */
  lemma ResultsForPlacement(results: seq<DetectionResult>, c: string, x: DetectionResult)
    requires x in results
    ensures x in ResultsFor(results, c) <==> x.columnName == c
  {
    ResultsForCount(results, c, x);
  }

  /** The state `sorted_results` must be in once the columns `done` are filled. */
  ghost predicate FilledFor(sorted: Dict<string, seq<DetectionResult>>, results: seq<DetectionResult>, done: seq<string>) {
    && DistinctKeys(sorted)
    && (forall c :: c in Keys(sorted) <==> c in done)
    && (forall c :: c in done ==> Get(sorted, c) == Some(ResultsFor(results, c)))
  }

  /** Filling one more column keeps `FilledFor`. */
  lemma FilledForStep(sorted: Dict<string, seq<DetectionResult>>, results: seq<DetectionResult>, done: seq<string>, c: string)
    requires FilledFor(sorted, results, done)
    ensures FilledFor(Put(sorted, c, ResultsFor(results, c)), results, done + [c])
  {
    var v := ResultsFor(results, c);
    forall k | k in done + [c]
      ensures Get(Put(sorted, c, v), k) == Some(ResultsFor(results, k))
    {
      if k == c {
        PutGet(sorted, c, v);
      } else {
        PutOther(sorted, c, v, k);
      }
    }
  }

  /** The inner loop of `sort_results`: reset column `c`, then append its results one by one. */
  method FillColumn(sorted0: Dict<string, seq<DetectionResult>>, results: seq<DetectionResult>, c: string)
    returns (sorted: Dict<string, seq<DetectionResult>>)
    ensures sorted == Put(sorted0, c, ResultsFor(results, c))
  {
    sorted := Put(sorted0, c, []);
    for j := 0 to |results|
      invariant sorted == Put(sorted0, c, ResultsFor(results[..j], c))
    {
      var s := results[j];
      assert results[..j + 1][..j] == results[..j];
      if s.columnName == c {
        PutGet(sorted0, c, ResultsFor(results[..j], c));
        PutOverwrite(sorted0, c, ResultsFor(results[..j], c), ResultsFor(results[..j], c) + [s]);
        sorted := Put(sorted, c, Get(sorted, c).value + [s]);
      }
    }
    assert results[..|results|] == results;
  }

  /**
   * `sort_results`: one key per column, in the order the columns come, each
   * holding the results for that column. A repeated column is reset and
   * refilled, which gives the same list again.
   */
  method SortResults(results: seq<DetectionResult>, columns: seq<string>) returns (sorted: Dict<string, seq<DetectionResult>>)
    ensures DistinctKeys(sorted)
    ensures forall c :: c in Keys(sorted) <==> c in columns
    ensures forall c :: c in columns ==> Get(sorted, c) == Some(ResultsFor(results, c))
    ensures (forall i, j :: 0 <= i < j < |columns| ==> columns[i] != columns[j]) ==>
              |sorted| == |columns| && forall i :: 0 <= i < |columns| ==> sorted[i].0 == columns[i]
  {
    ghost var distinct := forall i, j :: 0 <= i < j < |columns| ==> columns[i] != columns[j];
    sorted := [];
    for i := 0 to |columns|
      invariant FilledFor(sorted, results, columns[..i])
      invariant distinct ==> |sorted| == i && forall k :: 0 <= k < i ==> sorted[k].0 == columns[k]
    {
      var c := columns[i];
      ghost var before := sorted;
      assert columns[..i + 1] == columns[..i] + [c];
      sorted := FillColumn(sorted, results, c);
      FilledForStep(before, results, columns[..i], c);
      if distinct {
        assert c !in columns[..i];
        PutNew(before, c, ResultsFor(results, c));
      }
    }
    assert columns[..|columns|] == columns;
  }

  /** The set of column names a dataset reports, which `precheck_columns` changes in place. */
  class ColumnNames {
    var elements: set<string>

    constructor (elements: set<string>)
      ensures this.elements == elements
    {
      this.elements := elements;
    }
  }

  /** The name pandas gives an unnamed index column read back from CSV. */
  const IndexColumn: string := "Unnamed: 0"

  /** The column names once the index column is dropped. */
  function Prechecked(columns: set<string>): (r: set<string>)
    ensures IndexColumn !in r
    ensures forall c :: c in r <==> c in columns && c != IndexColumn
  {
    if IndexColumn in columns then columns - {IndexColumn} else columns
  }

  /** Prechecking twice is prechecking once. */
  lemma PrecheckedIdempotent(columns: set<string>)
    ensures Prechecked(Prechecked(columns)) == Prechecked(columns)
  {
  }

  /** A set without the index column is returned as it is. */
  lemma PrecheckedUnchanged(columns: set<string>)
    requires IndexColumn !in columns
    ensures Prechecked(columns) == columns
  {
  }

  /** `precheck_columns`: removes the index column from the given set and returns that same set. */
  method PrecheckColumns(columns: ColumnNames) returns (r: ColumnNames)
    modifies columns
    ensures r == columns
    ensures columns.elements == Prechecked(old(columns.elements))
  {
    if IndexColumn in columns.elements {
      columns.elements := columns.elements - {IndexColumn};
    }
    return columns;
  }
}
