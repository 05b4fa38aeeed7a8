/** A Python `dict` with string keys: the keys in insertion order and the
    value of each. */
module OrderedDicts {
  import opened UniqueList

  datatype Dict<V> = Dict(keys: seq<string>, values: map<string, V>) {
    /** The keys are listed once each, and exactly the keys with a value. */
    ghost predicate Valid() {
      NoDups(keys) && (forall k :: k in values <==> k in keys)
    }

    /** `d[key] = value`: a new key goes last, an existing one keeps its place. */
    function Put(key: string, value: V): (r: Dict<V>)
      ensures r.values == values[key := value]
    {
      Dict(if key in values then keys else keys + [key], values[key := value])
    }
  }

  /** Storing a key keeps the keys free of repeats and in step with the values. */
  lemma PutValid<V>(d: Dict<V>, key: string, value: V)
    requires d.Valid()
    ensures d.Put(key, value).Valid()
    ensures d.Put(key, value).keys == if key in d.values then d.keys else d.keys + [key]
  {
    if key !in d.values {
      var ks := d.keys + [key];
      forall i, j | 0 <= i < j < |ks| ensures ks[i] != ks[j] {
        if j == |d.keys| {
          assert ks[i] in d.keys;
        }
      }
    }
  }

  /** Storing a key twice leaves what storing the second value alone does. */
  lemma PutPut<V>(d: Dict<V>, key: string, v: V, w: V)
    ensures d.Put(key, v).Put(key, w) == d.Put(key, w)
  {
    assert d.values[key := v][key := w] == d.values[key := w];
  }
}
