/** A Python `dict` whose iteration order matters, as an association list in insertion
    order. Assigning to an existing key replaces its value in place and keeps its position;
    assigning to a new key appends. */
module OrderedDict {
  import opened Wrappers

  type ODict<K, V> = seq<(K, V)>

  function Keys<K, V>(d: ODict<K, V>): (ks: seq<K>)
    ensures |ks| == |d|
    ensures forall i :: 0 <= i < |d| ==> ks[i] == d[i].0
  {
    seq(|d|, i requires 0 <= i < |d| => d[i].0)
  }

  /** No key appears twice, as in every Python dict. */
  ghost predicate DistinctKeys<K, V>(d: ODict<K, V>) {
    forall i, j :: 0 <= i < j < |d| ==> d[i].0 != d[j].0
  }

  /** The position of the first occurrence of `k` in `ks`. */
  function IndexOf<K(==)>(ks: seq<K>, k: K): (i: nat)
    requires k in ks
    ensures i < |ks| && ks[i] == k
    ensures forall j :: 0 <= j < i ==> ks[j] != k
    decreases |ks|
  {
    if ks[0] == k then 0 else 1 + IndexOf(ks[1..], k)
  }

  lemma IndexOfIsFirst<K>(ks: seq<K>, k: K, i: nat)
    requires i < |ks| && ks[i] == k
    requires forall j :: 0 <= j < i ==> ks[j] != k
    ensures IndexOf(ks, k) == i
  {
  }

  /** `d.get(k)`: the value of the first entry with key `k`. */
  function Lookup<K(==), V>(d: ODict<K, V>, k: K): (r: Option<V>)
    ensures r.None? <==> k !in Keys(d)
  {
    var ks := Keys(d);
    if k in ks then Some(d[IndexOf(ks, k)].1) else None
  }

  /** In a dict with distinct keys, the entry at position `i` is what `Lookup` finds. */
  lemma LookupAt<K, V>(d: ODict<K, V>, i: nat)
    requires DistinctKeys(d)
    requires i < |d|
    ensures Lookup(d, d[i].0) == Some(d[i].1)
  {
    var ks := Keys(d);
    assert ks[i] == d[i].0;
    var j := IndexOf(ks, d[i].0);
    assert j == i;
  }

  /** `d[k] = v`. */
  function Put<K(==), V>(d: ODict<K, V>, k: K, v: V): (r: ODict<K, V>)
    ensures Lookup(r, k) == Some(v)
    ensures forall k' :: k' in Keys(d) && k' != k ==> Lookup(r, k') == Lookup(d, k')
    ensures k in Keys(d) ==> Keys(r) == Keys(d)
    ensures k !in Keys(d) ==> Keys(r) == Keys(d) + [k]
    ensures DistinctKeys(d) ==> DistinctKeys(r)
  {
    var ks := Keys(d);
    if k in ks then
      var r := d[IndexOf(ks, k) := (k, v)];
      assert Keys(r) == ks;
      r
    else
      var r := d + [(k, v)];
      assert Keys(r) == ks + [k];
      forall k' | k' in ks ensures IndexOf(ks + [k], k') == IndexOf(ks, k') {
        IndexOfIsFirst(ks + [k], k', IndexOf(ks, k'));
      }
      r
  }
}
