/**
 * A JavaScript `Map<K, V>` as the dashboard uses it: lookup by key, and
 * iteration (`keys()`, `values()`, `Array.from`) in insertion order.
 */
module JsMap {
  import opened Tally

  datatype InsertionMap<K(==), V> = InsertionMap(order: seq<K>, entries: map<K, V>)
  {
    /** Every key is listed once in `order`, and `order` lists exactly the keys. */
    ghost predicate Valid()
    {
      && Distinct(order)
      && (forall k :: k in entries ==> k in order)
      && (forall k :: k in order ==> k in entries)
    }

    /** `Array.from(m.values())`. */
    function Values(): (vs: seq<V>)
      requires Valid()
      ensures |vs| == |order|
      ensures forall i :: 0 <= i < |order| ==> vs[i] == entries[order[i]]
    {
      seq(|order|, i requires 0 <= i < |order| => entries[order[i]])
    }

    /** `m.set(k, v)`: a key already present keeps its place, a new key goes last. */
    function Set(k: K, v: V): (m: InsertionMap<K, V>)
      requires Valid()
      ensures m.Valid()
      ensures m.entries == entries[k := v]
      ensures m.order == if k in entries then order else order + [k]
    {
      InsertionMap(if k in entries then order else order + [k], entries[k := v])
    }
  }

  function Empty<K(==), V>(): (m: InsertionMap<K, V>)
    ensures m.Valid()
  {
    InsertionMap([], map[])
  }
}
