/** A string-keyed dictionary that remembers insertion order, as a Python dict does. */
module Dicts {

  datatype Dict<V> = Dict(keys: seq<string>, items: map<string, V>)

  function EmptyDict<V>(): (d: Dict<V>)
    ensures Valid(d) && d.items == map[]
  {
    Dict([], map[])
  }

  /** No key is listed twice. */
  ghost predicate Distinct(keys: seq<string>) {
    forall i, j :: 0 <= i < j < |keys| ==> keys[i] != keys[j]
  }

  /** Keys are listed once each, and exactly the keys of the map are listed. */
  ghost predicate Valid<V>(d: Dict<V>) {
    && Distinct(d.keys)
    && (forall k :: k in d.items <==> k in d.keys)
  }

  /** `d[k] = v`: an existing key keeps its place in the order, a new key goes last. */
  function Put<V>(d: Dict<V>, k: string, v: V): (r: Dict<V>)
    ensures r.items == d.items[k := v]
    ensures k in d.items ==> r.keys == d.keys
    ensures k !in d.items ==> r.keys == d.keys + [k]
    ensures Valid(d) ==> Valid(r)
  {
    if k in d.items then Dict(d.keys, d.items[k := v]) else Dict(d.keys + [k], d.items[k := v])
  }

  /** A dictionary holding one entry. */
  function Single<V>(k: string, v: V): (d: Dict<V>)
    ensures Valid(d) && d.keys == [k] && d.items == map[k := v]
  {
    Put(EmptyDict(), k, v)
  }

  /** Storing twice under one key leaves what the second store says. */
  lemma PutPut<V>(d: Dict<V>, k: string, v1: V, v2: V)
    ensures Put(Put(d, k, v1), k, v2) == Put(d, k, v2)
  {
    assert d.items[k := v1][k := v2] == d.items[k := v2];
  }
}
