/**
 * Keyed containers: a mutable dictionary, the container adapter over it, and
 * the derived helpers that enumerate keys with their values.
 */
module Storage {
  import opened Common

  /** A mutable dictionary (the .NET `IDictionary` the adapter wraps). */
  class Dictionary<K(==), V> {
    var entries: map<K, V>

    constructor (entries: map<K, V>)
      ensures this.entries == entries
    {
      this.entries := entries;
    }

    predicate ContainsKey(key: K)
      reads this
    {
      key in entries
    }

    function TryGetValue(key: K): (r: Option<V>)
      reads this
      ensures r.Some? <==> key in entries
      ensures r.Some? ==> r.value == entries[key]
    {
      if key in entries then Some(entries[key]) else None
    }

    /** The indexer's setter: inserts or overwrites one entry. */
    method Set(key: K, value: V)
      modifies this
      ensures entries == old(entries)[key := value]
    {
      entries := entries[key := value];
    }

    method Remove(key: K) returns (removed: bool)
      modifies this
      ensures removed <==> key in old(entries)
      ensures entries == old(entries) - {key}
    {
      removed := key in entries;
      entries := entries - {key};
    }

    /** The `Keys` collection, in an order the dictionary chooses. */
    method Keys() returns (keys: seq<K>)
      ensures IsEnumeration(keys, entries.Keys)
    {
      keys := [];
      var rest := entries.Keys;
      while rest != {}
        invariant rest <= entries.Keys
        invariant Distinct(keys)
        invariant forall i :: 0 <= i < |keys| ==> keys[i] in entries.Keys && keys[i] !in rest
        invariant forall k | k in entries.Keys :: k in rest || k in keys
        decreases rest
      {
        var k :| k in rest;
        keys := keys + [k];
        rest := rest - {k};
      }
    }
  }

  /**
   * The container that `ToContainer` builds: every operation goes straight to
   * the wrapped dictionary, so changes made through it are visible there.
   */
  class Container<K(==), V> {
    const dictionary: Dictionary<K, V>

    constructor (dictionary: Dictionary<K, V>)
      ensures this.dictionary == dictionary
    {
      this.dictionary := dictionary;
    }

    /** Every key of the dictionary exactly once. */
    method GetKeys() returns (keys: seq<K>)
      ensures IsEnumeration(keys, dictionary.entries.Keys)
    {
      keys := dictionary.Keys();
    }

    /** Add-if-absent: a present key is never overwritten. */
    method TryAdd(key: K, value: V) returns (added: bool)
      modifies dictionary
      ensures added <==> key !in old(dictionary.entries)
      ensures added ==> dictionary.entries == old(dictionary.entries)[key := value]
      ensures !added ==> dictionary.entries == old(dictionary.entries)
    {
      if dictionary.ContainsKey(key) {
        return false;
      }
      dictionary.Set(key, value);
      return true;
    }

    /** Lookup agrees with the dictionary. */
    function TryGet(key: K): (r: Option<V>)
      reads dictionary
      ensures r.Some? <==> key in dictionary.entries
      ensures r.Some? ==> r.value == dictionary.entries[key]
    {
      dictionary.TryGetValue(key)
    }

    method TryRemove(key: K) returns (removed: bool)
      modifies dictionary
      ensures removed <==> key in old(dictionary.entries)
      ensures key !in dictionary.entries
      ensures forall k | k in old(dictionary.entries) && k != key :: k in dictionary.entries && dictionary.entries[k] == old(dictionary.entries)[k]
      ensures dictionary.entries.Keys <= old(dictionary.entries).Keys
    {
      removed := dictionary.Remove(key);
    }
  }

  /** Adapts a dictionary into a container that shares it. */
  method ToContainer<K(==), V>(dictionary: Dictionary<K, V>) returns (c: Container<K, V>)
    ensures fresh(c) && c.dictionary == dictionary
  {
    c := new Container(dictionary);
  }

  /**
   * The pairs a walk over `keys` yields when it looks each key up in `m` and
   * keeps only the keys that are found, in the order of `keys`.
   */
  function Collect<K, V>(keys: seq<K>, m: map<K, V>): (r: seq<(K, V)>)
    ensures |r| <= |keys|
  {
    if keys == [] then []
    else
      var last := keys[|keys| - 1];
      Collect(keys[..|keys| - 1], m) + if last in m then [(last, m[last])] else []
  }

  /** A pair is collected exactly when its key was walked and found with that value. */
  lemma {:induction false} CollectMembership<K, V>(keys: seq<K>, m: map<K, V>, k: K, v: V)
    ensures (k, v) in Collect(keys, m) <==> k in keys && k in m && m[k] == v
  {
    if keys != [] {
      var init := keys[..|keys| - 1];
      CollectMembership(init, m, k, v);
      assert keys == init + [keys[|keys| - 1]];
    }
  }

  /** A key that is not found is skipped: nothing for it is collected. */
  lemma {:induction false} CollectSkipsMissing<K, V>(keys: seq<K>, m: map<K, V>, k: K)
    requires k !in m
    ensures forall i :: 0 <= i < |Collect(keys, m)| ==> Collect(keys, m)[i].0 != k
  {
    forall i | 0 <= i < |Collect(keys, m)|
      ensures Collect(keys, m)[i].0 != k
    {
      var p := Collect(keys, m)[i];
      CollectMembership(keys, m, p.0, p.1);
    }
  }

  /** When every walked key is found, the pairs follow the walk one for one. */
  lemma {:induction false} CollectAllFound<K, V>(keys: seq<K>, m: map<K, V>)
    requires forall i :: 0 <= i < |keys| ==> keys[i] in m
    ensures |Collect(keys, m)| == |keys|
    ensures forall i :: 0 <= i < |keys| ==> Collect(keys, m)[i] == (keys[i], m[keys[i]])
  {
    if keys != [] {
      CollectAllFound(keys[..|keys| - 1], m);
    }
  }

  /** The values of a sequence of pairs, in the same order. */
  function Values<K, V>(pairs: seq<(K, V)>): (r: seq<V>)
  {
    if pairs == [] then [] else Values(pairs[..|pairs| - 1]) + [pairs[|pairs| - 1].1]
  }

  /** `Values` keeps length and order and takes the value of each pair. */
  lemma {:induction false} ValuesProjection<K, V>(pairs: seq<(K, V)>)
    ensures |Values(pairs)| == |pairs|
    ensures forall i :: 0 <= i < |pairs| ==> Values(pairs)[i] == pairs[i].1
  {
    if pairs != [] {
      ValuesProjection(pairs[..|pairs| - 1]);
    }
  }

  /** The values of a faithful listing of `m` are exactly the values `m` holds. */
  lemma ValuesOfListing<K, V>(pairs: seq<(K, V)>, m: map<K, V>)
    requires forall k, v :: (k, v) in pairs <==> k in m && m[k] == v
    ensures forall i :: 0 <= i < |Values(pairs)| ==> exists k :: k in m && m[k] == Values(pairs)[i]
    ensures forall k | k in m :: exists i :: 0 <= i < |Values(pairs)| && Values(pairs)[i] == m[k]
  {
    var vs := Values(pairs);
    ValuesProjection(pairs);
    forall i | 0 <= i < |vs|
      ensures exists k :: k in m && m[k] == vs[i]
    {
      assert (pairs[i].0, pairs[i].1) in pairs;
    }
    forall k | k in m
      ensures exists i :: 0 <= i < |vs| && vs[i] == m[k]
    {
      assert (k, m[k]) in pairs;
      var i :| 0 <= i < |pairs| && pairs[i] == (k, m[k]);
      assert vs[i] == m[k];
    }
  }

  /**
   * Walks the container's keys and yields each key whose lookup succeeds
   * with the value found. The result is `Collect` over the enumeration the
   * container produced; it holds every entry exactly once.
   */
  method GetKeysAndValues<K(==), V>(c: Container<K, V>) returns (r: seq<(K, V)>)
    ensures exists keys :: IsEnumeration(keys, c.dictionary.entries.Keys) && r == Collect(keys, c.dictionary.entries)
    ensures |r| == |c.dictionary.entries|
    ensures forall k, v :: (k, v) in r <==> k in c.dictionary.entries && c.dictionary.entries[k] == v
  {
    var keys := c.GetKeys();
    r := [];
    var i := 0;
    while i < |keys|
      invariant 0 <= i <= |keys|
      invariant r == Collect(keys[..i], c.dictionary.entries)
    {
      var found := c.TryGet(keys[i]);
      if found.Some? {
        r := r + [(keys[i], found.value)];
      }
      assert keys[..i + 1][..i] == keys[..i];
      i := i + 1;
    }
    assert keys[..i] == keys;
    CollectAllFound(keys, c.dictionary.entries);
    EnumerationSize(keys, c.dictionary.entries.Keys);
    forall k, v ensures (k, v) in r <==> k in c.dictionary.entries && c.dictionary.entries[k] == v {
      CollectMembership(keys, c.dictionary.entries, k, v);
    }
  }

  /** The values of `GetKeysAndValues`, in the same order. */
  method GetValues<K(==), V>(c: Container<K, V>) returns (vs: seq<V>)
    ensures exists keys :: IsEnumeration(keys, c.dictionary.entries.Keys) && vs == Values(Collect(keys, c.dictionary.entries))
    ensures |vs| == |c.dictionary.entries|
    ensures forall i :: 0 <= i < |vs| ==> exists k :: k in c.dictionary.entries && c.dictionary.entries[k] == vs[i]
    ensures forall k | k in c.dictionary.entries :: exists i :: 0 <= i < |vs| && vs[i] == c.dictionary.entries[k]
  {
    var pairs := GetKeysAndValues(c);
    vs := Values(pairs);
    ValuesProjection(pairs);
    ValuesOfListing(pairs, c.dictionary.entries);
  }

  /** After a successful add, a lookup of the same key yields the value added. */
  method AddThenGet<K(==), V>(c: Container<K, V>, key: K, value: V) returns (added: bool, found: Option<V>)
    modifies c.dictionary
    ensures added <==> key !in old(c.dictionary.entries)
    ensures added ==> found == Some(value)
  {
    added := c.TryAdd(key, value);
    found := c.TryGet(key);
  }
}
