/** Python's `dict` with string keys: an insertion-ordered finite map.
    Iterating `d.items()` visits `keys` in order; assigning to a key that is
    already present replaces its value and keeps its position. */
module PyDict {

  datatype Dict<V> = Dict(keys: seq<string>, entries: map<string, V>)

  /** The keys are distinct and are exactly the domain of `entries`. */
  ghost predicate Valid<V>(d: Dict<V>) {
    && (forall i, j | 0 <= i < j < |d.keys| :: d.keys[i] != d.keys[j])
    && (forall k :: k in d.entries <==> k in d.keys)
  }

  /** `{}` */
  function Empty<V>(): (r: Dict<V>)
    ensures Valid(r) && r.keys == []
  {
    Dict([], map[])
  }

  /** `d[k] = v` */
  function Put<V>(d: Dict<V>, k: string, v: V): (r: Dict<V>)
    requires Valid(d)
    ensures Valid(r)
    ensures k in r.entries && r.entries[k] == v
    ensures forall k' | k' != k :: (k' in r.entries <==> k' in d.entries)
    ensures forall k' | k' != k && k' in d.entries :: r.entries[k'] == d.entries[k']
    ensures k in d.entries ==> r.keys == d.keys
    ensures k !in d.entries ==> r.keys == d.keys + [k]
  {
    if k in d.entries then Dict(d.keys, d.entries[k := v])
    else Dict(d.keys + [k], d.entries[k := v])
  }

  /** In a valid dict, the key at position `j` does not occur before `j`. */
  lemma KeyNotInPrefix<V>(d: Dict<V>, j: nat)
    requires Valid(d) && j < |d.keys|
    ensures d.keys[j] !in d.keys[..j]
  {
  }
}
