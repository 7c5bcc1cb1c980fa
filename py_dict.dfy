/**
 * Python dictionaries as insertion-ordered association lists.
 *
 * A `dict` literal or comprehension is a sequence of (key, value) pairs in
 * insertion order; `keys()`, `values()` and `items()` follow that order, and
 * `get` answers the value stored under a key, or `None`.
 */
module PyDict {
  import opened Wrappers

  type Dict<K, V> = seq<(K, V)>

  /** Every key occurs once, as in any Python dict. */
  predicate DistinctKeys<K(==), V>(d: Dict<K, V>) {
    forall i, j :: 0 <= i < |d| && 0 <= j < |d| && d[i].0 == d[j].0 ==> i == j
  }

  /** No two keys share a value: the condition for the inverse to be well defined. */
  predicate Injective<K, V(==)>(d: Dict<K, V>) {
    forall i, j :: 0 <= i < |d| && 0 <= j < |d| && d[i].1 == d[j].1 ==> i == j
  }

  /** `list(d.keys())` */
  function Keys<K, V>(d: Dict<K, V>): seq<K>
  {
    seq(|d|, i requires 0 <= i < |d| => d[i].0)
  }

  /** `list(d.values())` */
  function Values<K, V>(d: Dict<K, V>): seq<V>
  {
    seq(|d|, i requires 0 <= i < |d| => d[i].1)
  }

  /** `d.get(k)`: the value paired with `k`, and `None` exactly when `k` is no key. */
  function Get<K(==), V>(d: Dict<K, V>, k: K): (r: Option<V>)
    ensures r.Some? ==> (k, r.value) in d
    ensures r.None? <==> k !in Keys(d)
  {
    if d == [] then None
    else
      assert Keys(d) == [d[0].0] + Keys(d[1..]);
      if d[0].0 == k then Some(d[0].1) else Get(d[1..], k)
  }

  /**
   * `{v: k for k, v in d.items()}`: the pairs are visited in insertion order
   * and a later pair overwrites an earlier one that has the same value.
   */
  function Inverted<K, V(==)>(d: Dict<K, V>): map<V, K>
  {
    if d == [] then map[]
    else Inverted(d[..|d| - 1])[d[|d| - 1].1 := d[|d| - 1].0]
  }

  /** The inverse is keyed by exactly the values of `d`, and every entry comes from a pair of `d`. */
  lemma {:induction false} InvertedDomain<K, V>(d: Dict<K, V>)
    ensures forall v :: v in Inverted(d) <==> v in Values(d)
    ensures forall v :: v in Inverted(d) ==> (Inverted(d)[v], v) in d
  {
    if d != [] {
      var p := d[..|d| - 1];
      InvertedDomain(p);
      assert Values(d) == Values(p) + [d[|d| - 1].1];
      forall v | v in Inverted(d) ensures (Inverted(d)[v], v) in d {
        if v != d[|d| - 1].1 {
          assert (Inverted(p)[v], v) in p;
        }
      }
    }
  }

  /**
   * Without injectivity the comprehension keeps the code of the LAST pair
   * carrying a value: `Inverted(d)[d[j].1] == d[j].0` for that last `j`.
   */
  lemma {:induction false} InvertedKeepsLast<K, V>(d: Dict<K, V>, j: nat)
    requires j < |d|
    requires forall i :: j < i < |d| ==> d[i].1 != d[j].1
    ensures d[j].1 in Inverted(d) && Inverted(d)[d[j].1] == d[j].0
  {
    if j < |d| - 1 {
      var p := d[..|d| - 1];
      InvertedKeepsLast(p, j);
    }
  }

  /** For an injective dict the inverse undoes it: `reverse[d[k]] == k` for every key `k`. */
  lemma {:induction false} InvertedInverts<K, V>(d: Dict<K, V>, k: K)
    requires Injective(d)
    requires k in Keys(d)
    ensures Get(d, k).Some?
    ensures Get(d, k).value in Inverted(d) && Inverted(d)[Get(d, k).value] == k
  {
    var v := Get(d, k).value;
    var j :| 0 <= j < |d| && d[j] == (k, v);
    InvertedKeepsLast(d, j);
  }

  /**
   * For any dict (injective or not) every label of the inverse maps to a key
   * whose `get` gives that label back: `d.get(reverse[v]) == v`.
   */
  lemma {:induction false} InvertedRoundTrip<K, V>(d: Dict<K, V>, v: V)
    requires DistinctKeys(d)
    requires v in Inverted(d)
    ensures Get(d, Inverted(d)[v]) == Some(v)
  {
    InvertedDomain(d);
    var k := Inverted(d)[v];
    assert (k, v) in d;
    var i :| 0 <= i < |d| && d[i] == (k, v);
    assert Keys(d)[i] == k;
    var r := Get(d, k);
    assert (k, r.value) in d;
    var j :| 0 <= j < |d| && d[j] == (k, r.value);
    assert d[i].0 == d[j].0;
  }
}
