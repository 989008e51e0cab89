/**
 * A Python `dict` as the aggregation uses it: a map together with the
 * order in which its keys were first inserted. Assigning to a key that is
 * already present keeps that key where it was; a new key goes last.
 */
module PyDict {

  import opened Seqs

  datatype Dict<K(!new), V> = Dict(keys: seq<K>, entries: map<K, V>)
  {
    /** Keys are listed once each, and exactly the keys of the map are listed. */
    ghost predicate Valid()
    {
      && Distinct(keys)
      && (forall k :: k in entries <==> k in keys)
    }

    /** `d.get(k, default)`. */
    function Get(k: K, default: V): (v: V)
      ensures k in entries ==> v == entries[k]
      ensures k !in entries ==> v == default
    {
      if k in entries then entries[k] else default
    }

    /** `d[k] = v`. */
    function Set(k: K, v: V): (d: Dict<K, V>)
      ensures Valid() ==> d.Valid()
      ensures d.entries == entries[k := v]
      ensures keys <= d.keys
      ensures k in entries ==> d.keys == keys
      ensures k !in entries ==> d.keys == keys + [k]
    {
      if k in entries then Dict(keys, entries[k := v]) else Dict(keys + [k], entries[k := v])
    }

    /** `list(d.values())`: the values in key order. */
    function Values(): (vs: seq<V>)
      requires Valid()
      ensures |vs| == |keys|
      ensures forall i :: 0 <= i < |keys| ==> vs[i] == entries[keys[i]]
    {
      seq(|keys|, i requires 0 <= i < |keys| => entries[keys[i]])
    }
  }

  /** `{}`. */
  function Empty<K(!new), V>(): (d: Dict<K, V>)
    ensures d.Valid() && d.keys == [] && d.entries == map[]
  {
    Dict([], map[])
  }
}
