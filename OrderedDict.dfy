/** A Python `dict` as the scripts use it: a finite map that remembers the
    order in which its keys were first inserted (`dict.items()` follows it). */
module OrderedDict {

  datatype Dict<K(==, !new), V> = Dict(keys: seq<K>, entries: map<K, V>) {

    /** The listed keys are exactly the map's, each listed once (as many
        listings as keys). */
    ghost predicate Valid() {
      && (forall k :: k in entries <==> k in keys)
      && |entries| == |keys|
    }

    /** `d[k] = v`: an existing key keeps its place, a new key goes last. */
    function Put(k: K, v: V): (d: Dict<K, V>)
      ensures d.entries == entries[k := v]
      ensures k in entries ==> d.keys == keys
      ensures k !in entries ==> d.keys == keys + [k]
      ensures Valid() ==> d.Valid()
    {
      if k in entries then Dict(keys, entries[k := v]) else Dict(keys + [k], entries[k := v])
    }

    /** `list(d.items())`: the pairs in key-insertion order. */
    function Items(): (items: seq<(K, V)>)
      requires Valid()
      ensures |items| == |keys| == |entries|
      ensures forall i :: 0 <= i < |keys| ==> items[i] == (keys[i], entries[keys[i]])
    {
      seq(|keys|, i requires 0 <= i < |keys| => (keys[i], entries[keys[i]]))
    }
  }

  /** Two dicts with the same keys in the same order and the same value
      for every key are the same dict. */
  lemma SameDict<K(!new), V>(p: Dict<K, V>, q: Dict<K, V>)
    requires p.Valid() && q.Valid() && p.keys == q.keys
    requires forall k :: k in p.entries ==> k in q.entries && p.entries[k] == q.entries[k]
    ensures p == q
  {
    assert p.entries == q.entries;
  }

  /** `{}`. */
  function Empty<K(==, !new), V>(): (d: Dict<K, V>)
    ensures d.Valid() && d.keys == [] && d.entries == map[]
  {
    Dict([], map[])
  }
}
