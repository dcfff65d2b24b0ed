/**
 * Python dictionaries as the engine uses them: a dict remembers the order in
 * which its keys were first inserted, and that order is observable (it is the
 * order `items()` iterates, the tie-break of a stable sort, the order of
 * fields in the emitted JSON). A dict is therefore its list of items.
 */
module Dicts {
  import opened Wrappers

  /** The items of a dict, in insertion order. */
  type Dict<V> = seq<(string, V)>

  /** The invariant every real dict keeps: no key twice. */
  predicate DistinctKeys<V>(d: Dict<V>) {
    forall i, j :: 0 <= i < j < |d| ==> d[i].0 != d[j].0
  }

  /** The position of key `k`, if it is present (the first one, should a list of items repeat it). */
  function Find<V>(d: Dict<V>, k: string): (r: Option<nat>)
    ensures r.Some? ==> r.value < |d| && d[r.value].0 == k
    ensures r.Some? ==> forall j :: 0 <= j < r.value ==> d[j].0 != k
    ensures r.None? <==> forall j :: 0 <= j < |d| ==> d[j].0 != k
  {
    if d == [] then None
    else if d[0].0 == k then Some(0)
    else match Find(d[1..], k)
      case None => None
      case Some(i) => Some(i + 1)
  }

  /** `k in d` */
  predicate HasKey<V>(d: Dict<V>, k: string) {
    Find(d, k).Some?
  }

  /** `d.get(k)`, with `None` for a missing key. */
  function Lookup<V>(d: Dict<V>, k: string): Option<V> {
    match Find(d, k)
    case None => None
    case Some(i) => Some(d[i].1)
  }

  /** The keys, in insertion order. */
  function Keys<V>(d: Dict<V>): (ks: seq<string>)
    ensures |ks| == |d| && forall i :: 0 <= i < |d| ==> ks[i] == d[i].0
  {
    seq(|d|, i requires 0 <= i < |d| => d[i].0)
  }

  /** In a dict without repeated keys, every item is what its key looks up. */
  lemma LookupItem<V>(d: Dict<V>, i: nat)
    requires DistinctKeys(d) && i < |d|
    ensures Find(d, d[i].0) == Some(i)
    ensures Lookup(d, d[i].0) == Some(d[i].1)
  {
  }

  /** Two item lists with the same keys at the same places find every key at the same place. */
  lemma {:induction false} FindSameKeys<V>(d: Dict<V>, e: Dict<V>, k: string)
    requires |d| == |e| && forall j :: 0 <= j < |d| ==> d[j].0 == e[j].0
    ensures Find(d, k) == Find(e, k)
    decreases |d|
  {
    if d != [] && d[0].0 != k {
      FindSameKeys(d[1..], e[1..], k);
    }
  }

  /** Appending an item with another key does not change where `k` is found. */
  lemma {:induction false} FindAppend<V>(d: Dict<V>, item: (string, V), k: string)
    requires item.0 != k
    ensures Find(d + [item], k) == Find(d, k)
    decreases |d|
  {
    if d != [] && d[0].0 != k {
      assert (d + [item])[1..] == d[1..] + [item];
      FindAppend(d[1..], item, k);
    }
  }

  /**
   * `d[k] = v`: an existing key keeps its place and takes the new value, a new
   * key goes last; every other key keeps its value.
   */
  function Set<V>(d: Dict<V>, k: string, v: V): (r: Dict<V>)
    ensures Lookup(r, k) == Some(v)
    ensures forall k' :: k' != k ==> Lookup(r, k') == Lookup(d, k')
    ensures HasKey(d, k) ==> |r| == |d| && forall j :: 0 <= j < |d| ==> r[j].0 == d[j].0
    ensures !HasKey(d, k) ==> r == d + [(k, v)]
    ensures DistinctKeys(d) ==> DistinctKeys(r)
  {
    match Find(d, k)
    case Some(i) =>
      var r := d[i := (k, v)];
      assert forall k' :: Find(r, k') == Find(d, k') by {
        forall k' { FindSameKeys(r, d, k'); }
      }
      r
    case None =>
      var r := d + [(k, v)];
      assert forall k' :: k' != k ==> Find(r, k') == Find(d, k') by {
        forall k' | k' != k { FindAppend(d, (k, v), k'); }
      }
      assert r[|d|].0 == k;
      r
  }
}
