/** A map that remembers insertion order: setting a held key keeps its place, setting a new
    one appends, deleting closes the gap. */
module JsMap {
  import opened Options

  type OrderedMap<K, V> = seq<(K, V)>

  ghost predicate Distinct<K, V>(m: OrderedMap<K, V>) {
    forall i, j :: 0 <= i < j < |m| ==> m[i].0 != m[j].0
  }

  /** Position of a key, or the size when it is not held. */
  function Find<K(==), V>(m: OrderedMap<K, V>, key: K): (i: nat)
    ensures i <= |m|
    ensures forall j :: 0 <= j < i ==> m[j].0 != key
    ensures i < |m| ==> m[i].0 == key
  {
    if m == [] || m[0].0 == key then 0 else 1 + Find(m[1..], key)
  }

  predicate Has<K(==), V>(m: OrderedMap<K, V>, key: K) { Find(m, key) < |m| }

  function Get<K(==), V>(m: OrderedMap<K, V>, key: K): Option<V> {
    if Has(m, key) then Some(m[Find(m, key)].1) else None
  }

  function Delete<K(==), V>(m: OrderedMap<K, V>, key: K): OrderedMap<K, V> {
    var i := Find(m, key);
    if i < |m| then m[..i] + m[i + 1..] else m
  }

  function Set<K(==), V>(m: OrderedMap<K, V>, key: K, value: V): OrderedMap<K, V> {
    var i := Find(m, key);
    if i < |m| then m[i := (key, value)] else m + [(key, value)]
  }

  lemma HasIffHeld<K, V>(m: OrderedMap<K, V>, key: K)
    ensures Has(m, key) <==> exists i :: 0 <= i < |m| && m[i].0 == key
  {
  }

  lemma DeleteKeeps<K, V>(m: OrderedMap<K, V>, key: K)
    requires Distinct(m)
    ensures Distinct(Delete(m, key)) && !Has(Delete(m, key), key)
    ensures |Delete(m, key)| == if Has(m, key) then |m| - 1 else |m|
    ensures forall e :: e in Delete(m, key) <==> e in m && e.0 != key
  {
    var i, d := Find(m, key), Delete(m, key);
    if i < |m| {
      assert forall j :: 0 <= j < |d| ==> d[j] == if j < i then m[j] else m[j + 1];
      forall e | e in m && e.0 != key ensures e in d {
        var j :| 0 <= j < |m| && m[j] == e;
        assert e == d[if j < i then j else j - 1];
      }
    }
  }

  /** Deleting closes the gap: what stood before and after the key keeps its order. */
  lemma DeleteClosesGap<K, V>(x: OrderedMap<K, V>, e: (K, V), y: OrderedMap<K, V>)
    requires Distinct(x + [e] + y)
    ensures Delete(x + [e] + y, e.0) == x + y
  {
    var m := x + [e] + y;
    assert m[|x|] == e;
    assert Find(m, e.0) == |x|;
    assert m[..|x|] == x && m[|x| + 1..] == y;
  }

  lemma HeldIsGot<K, V>(m: OrderedMap<K, V>, e: (K, V))
    requires Distinct(m) && e in m
    ensures Get(m, e.0) == Some(e.1)
  {
    var i :| 0 <= i < |m| && m[i] == e;
    assert Find(m, e.0) == i;
  }

  lemma DeleteKeepsOthers<K, V>(m: OrderedMap<K, V>, key: K, other: K)
    requires Distinct(m)
    ensures Get(Delete(m, key), other) == if other == key then None else Get(m, other)
  {
    hide Delete;
    var d := Delete(m, key);
    DeleteKeeps(m, key);
    if Has(d, other) {
      var e := d[Find(d, other)];
      assert e in d;
      HeldIsGot(m, e);
    } else if Has(m, other) && other != key {
      var e := m[Find(m, other)];
      assert e in m;
      HeldIsGot(d, e);
    }
  }

  lemma GetAppended<K, V>(m: OrderedMap<K, V>, key: K, value: V, other: K)
    requires !Has(m, key)
    ensures Get(m + [(key, value)], other) == if other == key then Some(value) else Get(m, other)
  {
    var after := m + [(key, value)];
    assert forall j :: 0 <= j < |m| ==> after[j] == m[j];
    assert after[|m|] == (key, value);
  }

  /** Setting a held key keeps every place; setting a new one appends it. */
  lemma SetKeepsPlaces<K, V>(m: OrderedMap<K, V>, key: K, value: V)
    ensures var after := Set(m, key, value);
            && |m| <= |after| && Get(after, key) == Some(value)
            && (forall i :: 0 <= i < |m| ==> after[i].0 == m[i].0 && (m[i].0 != key ==> after[i] == m[i]))
            && |after| == if Has(m, key) then |m| else |m| + 1
  {
    var after, i := Set(m, key, value), Find(m, key);
    assert after[i] == (key, value) && forall j :: 0 <= j < i ==> after[j] == m[j];
  }
}
