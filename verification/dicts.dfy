/**
 * Python dictionaries with string keys, as ordered association lists: a
 * Python dict remembers the order in which keys were first inserted, and
 * `list(d.keys())` hands that order to the grade selectbox.
 */
module Dicts {
  import opened Wrappers

  type Dict<V> = seq<(string, V)>

  /** `list(d.keys())`. */
  function Keys<V>(d: Dict<V>): (ks: seq<string>)
    ensures |ks| == |d|
    ensures forall m :: 0 <= m < |d| ==> ks[m] == d[m].0
  {
    seq(|d|, m requires 0 <= m < |d| => d[m].0)
  }

  /** No key is stored twice, which every Python dict guarantees. */
  predicate DistinctKeys<V>(d: Dict<V>) {
    forall m, n :: 0 <= m < n < |d| ==> d[m].0 != d[n].0
  }

  /** The index of the first entry at or after i whose key is k, or |d|. */
  function IndexFrom<V>(d: Dict<V>, k: string, i: nat): (n: nat)
    requires i <= |d|
    ensures i <= n <= |d|
    ensures n < |d| ==> d[n].0 == k
    ensures forall m :: i <= m < n ==> d[m].0 != k
    decreases |d| - i
  {
    if i == |d| then i else if d[i].0 == k then i else IndexFrom(d, k, i + 1)
  }

  /** `d[k]`, with None standing for the KeyError a missing key raises. */
  function Get<V>(d: Dict<V>, k: string): (r: Option<V>)
    ensures r.Some? <==> k in Keys(d)
    ensures r.Some? ==> exists m :: 0 <= m < |d| && d[m] == (k, r.value)
  {
    var n := IndexFrom(d, k, 0);
    if n == |d| then None else Some(d[n].1)
  }

  /**
   * `d[k] = v`: an existing key keeps its place and takes the new value,
   * a new key goes at the end.
   */
  function Put<V>(d: Dict<V>, k: string, v: V): (r: Dict<V>)
    ensures k in Keys(d) ==> Keys(r) == Keys(d)
    ensures k !in Keys(d) ==> Keys(r) == Keys(d) + [k]
  {
    var n := IndexFrom(d, k, 0);
    if n == |d| then d + [(k, v)] else d[n := (k, v)]
  }

  /** After `d[k] = v`, reading k gives v and reading any other key is unchanged. */
  lemma {:induction false} GetPut<V>(d: Dict<V>, k: string, v: V, k': string)
    requires DistinctKeys(d)
    ensures Get(Put(d, k, v), k') == if k' == k then Some(v) else Get(d, k')
  {
    var n := IndexFrom(d, k, 0);
    var r := Put(d, k, v);
    var n' := IndexFrom(r, k', 0);
    if k' == k {
      assert r[n] == (k, v);
      assert n' == n;
    } else {
      forall m | 0 <= m < |d| ensures r[m].0 == d[m].0 { }
      var e := IndexFrom(d, k', 0);
      if e < |d| {
        assert r[e] == d[e];
      }
    }
  }

  /** `d[k] = v` keeps the keys distinct. */
  lemma {:induction false} PutKeepsDistinct<V>(d: Dict<V>, k: string, v: V)
    requires DistinctKeys(d)
    ensures DistinctKeys(Put(d, k, v))
  {
    var n := IndexFrom(d, k, 0);
    var r := Put(d, k, v);
    forall m | 0 <= m < |d| ensures r[m].0 == d[m].0 { }
  }

  /** Two dicts with the same keys in the same order find every key at the same place. */
  lemma {:induction false} IndexFromSameKeys<V, W>(d: Dict<V>, e: Dict<W>, k: string, i: nat)
    requires Keys(d) == Keys(e) && i <= |d|
    ensures IndexFrom(d, k, i) == IndexFrom(e, k, i)
    decreases |d| - i
  {
    assert |d| == |Keys(d)| == |e|;
    if i < |d| {
      assert d[i].0 == Keys(d)[i] == e[i].0;
      IndexFromSameKeys(d, e, k, i + 1);
    }
  }

  /** Two dicts with the same keys hold the same keys. */
  lemma {:induction false} GetSameKeys<V, W>(d: Dict<V>, e: Dict<W>, k: string)
    requires Keys(d) == Keys(e)
    ensures Get(d, k).Some? <==> Get(e, k).Some?
    ensures Get(d, k).Some? ==> exists m :: 0 <= m < |d| && d[m] == (k, Get(d, k).value) && e[m] == (k, Get(e, k).value)
  {
    IndexFromSameKeys(d, e, k, 0);
    var n := IndexFrom(d, k, 0);
    if n < |d| {
      assert d[n] == (k, Get(d, k).value) && e[n] == (k, Get(e, k).value);
    }
  }
}
