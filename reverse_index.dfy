/** Reverse indices: maps from a target's unique id to the set of sources referring to it. */
module ReverseIndex {

  /**
    `UtilMisc.addToSetInMap`: add `x` to the set stored under `key`, creating the set when
    the key is absent. Every other key keeps its set.
   */
  function AddToSetInMap<K, V>(m: map<K, set<V>>, key: K, x: V): (r: map<K, set<V>>)
    ensures r.Keys == m.Keys + {key}
    ensures key in m ==> r[key] == m[key] + {x}
    ensures key !in m ==> r[key] == {x}
    ensures forall k :: k in m && k != key ==> r[k] == m[k]
  {
    var old_set := if key in m then m[key] else {};
    m[key := old_set + {x}]
  }

  /** Adding an element that is already there changes nothing. */
  lemma AddToSetInMapPresent<K, V>(m: map<K, set<V>>, key: K, x: V)
    requires key in m && x in m[key]
    ensures AddToSetInMap(m, key, x) == m
  {
    var r := AddToSetInMap(m, key, x);
    assert r[key] == m[key];
  }

  /** Set semantics: repeating an insertion adds no duplicate. */
  lemma AddToSetInMapIdempotent<K, V>(m: map<K, set<V>>, key: K, x: V)
    ensures AddToSetInMap(AddToSetInMap(m, key, x), key, x) == AddToSetInMap(m, key, x)
  {
    AddToSetInMapPresent(AddToSetInMap(m, key, x), key, x);
  }
}
