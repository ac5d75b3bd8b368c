/**
 * The two ordered Java collections the core relies on: LinkedHashSet (a sequence
 * without duplicates, extended by `LinkedAdd`) and LinkedHashMap (`OrderedMap`: a
 * map together with the order in which its keys were first inserted).
 */
module Collections {
  import opened Wrappers

  predicate NoDuplicates<T(==)>(s: seq<T>) {
    forall i, j :: 0 <= i < j < |s| ==> s[i] != s[j]
  }

  /** LinkedHashSet.add: appends x unless it is already present. */
  function LinkedAdd<T(==)>(s: seq<T>, x: T): seq<T> {
    if x in s then s else s + [x]
  }

  lemma LinkedAddProperties<T>(s: seq<T>, x: T)
    requires NoDuplicates(s)
    ensures NoDuplicates(LinkedAdd(s, x))
    ensures forall y :: y in LinkedAdd(s, x) <==> y in s || y == x
    ensures |s| <= |LinkedAdd(s, x)| && LinkedAdd(s, x)[..|s|] == s
  {
  }

  /** LinkedHashMap: `keys` is the insertion order, `values` the entries. */
  datatype OrderedMap<K(==), V> = OrderedMap(keys: seq<K>, values: map<K, V>) {

    ghost predicate Valid() {
      && NoDuplicates(keys)
      && (forall k :: k in keys ==> k in values)
      && (forall k :: k in values ==> k in keys)
    }

    /** Map.put: a new key goes to the end, an existing key keeps its place. */
    function Put(k: K, v: V): OrderedMap<K, V> {
      OrderedMap(if k in values then keys else keys + [k], values[k := v])
    }

    /** Map.get, with null as None. */
    function Get(k: K): Option<V> {
      if k in values then Some(values[k]) else None
    }
  }

  function EmptyMap<K(==), V>(): OrderedMap<K, V> {
    OrderedMap([], map[])
  }

  lemma EmptyMapValid<K, V>()
    ensures EmptyMap<K, V>().Valid()
  {
  }

  lemma PutProperties<K, V>(m: OrderedMap<K, V>, k: K, v: V)
    requires m.Valid()
    ensures m.Put(k, v).Valid()
    ensures m.Put(k, v).Get(k) == Some(v)
    ensures forall j :: j != k ==> m.Put(k, v).Get(j) == m.Get(j)
    ensures |m.keys| <= |m.Put(k, v).keys| && m.Put(k, v).keys[..|m.keys|] == m.keys
    ensures k in m.values ==> m.Put(k, v).keys == m.keys
  {
  }
}
