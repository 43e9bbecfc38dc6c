/**
 * Python `dict` semantics that the registry and the profiler rely on:
 * keys are unique, iteration follows insertion order, and assigning to an
 * existing key replaces its value in place without moving it.
 */
module PyDict {
  import opened Wrappers

  /** The items of a dict, in insertion order. */
  type Dict<K, V> = seq<(K, V)>

  ghost predicate DistinctKeys<K, V>(d: Dict<K, V>) {
    forall i, j :: 0 <= i < j < |d| ==> d[i].0 != d[j].0
  }

  function Keys<K, V>(d: Dict<K, V>): set<K> {
    set i | 0 <= i < |d| :: d[i].0
  }

  /** `d.values()`, in iteration order. */
  function Values<K, V>(d: Dict<K, V>): (vs: seq<V>)
    ensures |vs| == |d|
    ensures forall i :: 0 <= i < |d| ==> vs[i] == d[i].1
  {
    seq(|d|, i requires 0 <= i < |d| => d[i].1)
  }

  /** Position of key `k`, or `|d|` when `k` is not a key. */
  function Find<K(==), V>(d: Dict<K, V>, k: K): (i: nat)
    ensures i <= |d|
    ensures i < |d| ==> d[i].0 == k
    ensures forall j :: 0 <= j < i ==> d[j].0 != k
  {
    if |d| == 0 then 0
    else if d[0].0 == k then 0
    else 1 + Find(d[1..], k)
  }

  lemma FindAbsent<K, V>(d: Dict<K, V>, k: K)
    ensures Find(d, k) == |d| <==> k !in Keys(d)
  {
    if k in Keys(d) {
      var i :| 0 <= i < |d| && d[i].0 == k;
      assert Find(d, k) <= i;
    }
  }

  /** `Find` is the first position holding `k`. */
  lemma FindFirst<K, V>(d: Dict<K, V>, k: K, i: nat)
    requires i <= |d|
    requires i < |d| ==> d[i].0 == k
    requires forall j :: 0 <= j < i ==> d[j].0 != k
    ensures Find(d, k) == i
  {
  }

  /** `d.get(k)` */
  function Get<K(==), V>(d: Dict<K, V>, k: K): (r: Option<V>)
    ensures r.Some? <==> k in Keys(d)
    ensures r.Some? ==> (k, r.value) in d
  {
    FindAbsent(d, k);
    var i := Find(d, k);
    if i < |d| then Some(d[i].1) else None
  }

  /** `d[k] = v` */
  function Put<K(==), V>(d: Dict<K, V>, k: K, v: V): (r: Dict<K, V>)
    ensures Keys(r) == Keys(d) + {k}
    ensures |r| == if k in Keys(d) then |d| else |d| + 1
    ensures forall i :: 0 <= i < |d| ==> r[i].0 == d[i].0
    ensures DistinctKeys(d) ==> DistinctKeys(r)
  {
    FindAbsent(d, k);
    var i := Find(d, k);
    if i < |d| then
      assert forall j :: 0 <= j < |d| ==> d[i := (k, v)][j].0 == d[j].0;
      d[i := (k, v)]
    else
      var r := d + [(k, v)];
      assert forall j :: 0 <= j < |d| ==> r[j] == d[j];
      assert r[|d|].0 == k;
      assert Keys(r) == Keys(d) + {k};
      r
  }

  /** After `d[k] = v`, looking up `k` gives `v`. */
  lemma PutGet<K, V>(d: Dict<K, V>, k: K, v: V)
    ensures Get(Put(d, k, v), k) == Some(v)
  {
    FindAbsent(d, k);
    var i := Find(d, k);
    var r := Put(d, k, v);
    assert r[i] == (k, v);
    assert Find(r, k) == i;
  }

  /** `d[k] = v` leaves every other key's entry as it was. */
  lemma PutOther<K, V>(d: Dict<K, V>, k: K, v: V, k': K)
    requires k' != k
    ensures Get(Put(d, k, v), k') == Get(d, k')
  {
    FindAbsent(d, k);
    var r := Put(d, k, v);
    var i := Find(d, k');
    var p := Find(d, k);
    assert forall j :: 0 <= j < |d| && j != p ==> r[j] == d[j];
    assert p < |r| ==> r[p].0 == k;
    FindAbsent(d, k');
    if i < |d| {
      FindFirst(r, k', i);
    } else {
      FindFirst(r, k', |r|);
    }
  }

  /** Assigning the same value twice is the same as assigning it once. */
  lemma PutIdempotent<K, V>(d: Dict<K, V>, k: K, v: V)
    ensures Put(Put(d, k, v), k, v) == Put(d, k, v)
  {
    FindAbsent(d, k);
    var r := Put(d, k, v);
    var i := Find(d, k);
    assert r[i] == (k, v);
    assert Find(r, k) == i;
    FindAbsent(r, k);
  }

  /** The last assignment to a key wins. */
  lemma PutOverwrite<K, V>(d: Dict<K, V>, k: K, v: V, w: V)
    ensures Put(Put(d, k, v), k, w) == Put(d, k, w)
  {
    FindAbsent(d, k);
    var r := Put(d, k, v);
    var i := Find(d, k);
    assert r[i] == (k, v);
    assert Find(r, k) == i;
    FindAbsent(r, k);
  }

  /** Assigning a key that is not yet present appends it at the end. */
  lemma PutNew<K, V>(d: Dict<K, V>, k: K, v: V)
    requires k !in Keys(d)
    ensures Put(d, k, v) == d + [(k, v)]
  {
    FindAbsent(d, k);
  }
}
