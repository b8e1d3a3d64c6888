/**
 * The per-key running totals the admin reports page builds in a plain JavaScript object
 * (`acc.byMoneda[key] += amount`). Such an object keeps its string keys in first-insertion
 * order, so the model is an association list of distinct keys in that order.
 */
module Tally {

  type Entries<K> = seq<(K, real)>

  function Keys<K>(e: Entries<K>): set<K> {
    if e == [] then {} else {e[0].0} + Keys(e[1..])
  }

  /** No key occurs twice. */
  ghost predicate DistinctKeys<K>(e: Entries<K>) {
    e == [] || (e[0].0 !in Keys(e[1..]) && DistinctKeys(e[1..]))
  }

  /** `obj[k]`, with an absent key read as 0. */
  function Get<K(==)>(e: Entries<K>, k: K): real {
    if e == [] then 0.0 else if e[0].0 == k then e[0].1 else Get(e[1..], k)
  }

  /** The sum of all values. */
  function Sum<K>(e: Entries<K>): real {
    if e == [] then 0.0 else e[0].1 + Sum(e[1..])
  }

  /**
   * `if (!obj[k]) obj[k] = 0; obj[k] += v`: adds `v` to the entry for `k`, creating it at
   * the end when `k` is new.
   */
  function Add<K(==,!new)>(e: Entries<K>, k: K, v: real): (r: Entries<K>)
    ensures Keys(r) == Keys(e) + {k}
    ensures Sum(r) == Sum(e) + v
    ensures DistinctKeys(e) ==> DistinctKeys(r)
    ensures DistinctKeys(e) ==> Get(r, k) == Get(e, k) + v
    ensures forall k' :: k' != k ==> Get(r, k') == Get(e, k')
    ensures |r| == if k in Keys(e) then |e| else |e| + 1
    ensures k !in Keys(e) ==> r == e + [(k, v)]
    ensures k in Keys(e) ==> forall i :: 0 <= i < |r| ==> r[i].0 == e[i].0
  {
    if e == [] then [(k, v)]
    else
      if e[0].0 == k then
        var r := [(k, e[0].1 + v)] + e[1..];
        assert r[1..] == e[1..];
        r
      else
        var rest := Add(e[1..], k, v);
        var r := [e[0]] + rest;
        assert r[1..] == rest;
        r
  }

  /** An absent key reads as 0. */
  lemma GetAbsent<K>(e: Entries<K>, k: K)
    requires k !in Keys(e)
    ensures Get(e, k) == 0.0
  {
    if e != [] {
      assert e[0].0 in Keys(e);
      assert Keys(e[1..]) <= Keys(e);
      GetAbsent(e[1..], k);
    }
  }
}
