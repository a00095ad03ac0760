// The JavaScript `Map` the runtime keeps its registries in: a dictionary that also
// remembers the order in which keys were first inserted, which is the order of
// `keys()`, `values()` and `for … of`. Replacing the value of a present key keeps its
// position; deleting a key removes it from the order.

module JsMap {
  import opened Wrappers

  predicate Distinct<K(==)>(s: seq<K>)
  {
    forall i, j :: 0 <= i < j < |s| ==> s[i] != s[j]
  }

  /** The set of elements of a sequence. */
  function Elements<K(!new)>(s: seq<K>): (r: set<K>)
    ensures forall x :: x in r <==> x in s
  {
    set x | x in s
  }

  /** `s` without any occurrence of `k`, order kept. */
  function Without<K(==,!new)>(s: seq<K>, k: K): (r: seq<K>)
    ensures forall x :: x in r <==> x in s && x != k
    ensures |r| <= |s|
  {
    if s == [] then [] else (if s[0] == k then [] else [s[0]]) + Without(s[1..], k)
  }

  lemma {:induction false} WithoutKeepsDistinct<K(!new)>(s: seq<K>, k: K)
    requires Distinct(s)
    ensures Distinct(Without(s, k))
  {
    if s != [] {
      WithoutKeepsDistinct(s[1..], k);
      var rest := Without(s[1..], k);
      if s[0] != k {
        assert s[0] !in rest;
        var r := [s[0]] + rest;
        forall i, j | 0 <= i < j < |r| ensures r[i] != r[j] {
          if i == 0 { assert r[j] in rest; }
          else { assert r[i] == rest[i - 1] && r[j] == rest[j - 1]; }
        }
      }
    }
  }

  /** A first key other than `k` stays in front. */
  lemma WithoutKeepsHead<K(!new)>(s: seq<K>, k: K)
    requires s != [] && s[0] != k
    ensures Without(s, k) == [s[0]] + Without(s[1..], k)
  {
  }

  /** Removing a key that is absent changes nothing. */
  lemma {:induction false} WithoutAbsent<K(!new)>(s: seq<K>, k: K)
    requires k !in s
    ensures Without(s, k) == s
  {
    if s != [] {
      WithoutAbsent(s[1..], k);
    }
  }

  /** Removing the first key of a duplicate-free sequence leaves its tail. */
  lemma WithoutHead<K(!new)>(s: seq<K>)
    requires Distinct(s) && s != []
    ensures Without(s, s[0]) == s[1..]
  {
    assert s[0] !in s[1..];
    WithoutAbsent(s[1..], s[0]);
  }

  /** `keys` without the members of `gone`, order kept. */
  function Except<K(==,!new)>(keys: seq<K>, gone: set<K>): (r: seq<K>)
    ensures forall x :: x in r <==> x in keys && x !in gone
    ensures |r| <= |keys|
  {
    if keys == [] then [] else Except(keys[..|keys| - 1], gone) + (if keys[|keys| - 1] in gone then [] else [keys[|keys| - 1]])
  }

  /** Filtering by no keys keeps everything. */
  lemma {:induction false} ExceptNothing<K(!new)>(keys: seq<K>)
    ensures Except(keys, {}) == keys
  {
    if keys != [] {
      ExceptNothing(keys[..|keys| - 1]);
      assert keys == keys[..|keys| - 1] + [keys[|keys| - 1]];
    }
  }

  /** Removing keys from a map one at a time. */
  lemma MinusOneMore<K(!new), V>(m: map<K, V>, gone: set<K>, x: K)
    ensures (m - gone) - {x} == m - (gone + {x})
    ensures x !in m - gone ==> m - gone == m - (gone + {x})
  {
  }

  /** Removing one more key from a filtered sequence is filtering by one more key. */
  lemma {:induction false} WithoutExcept<K(!new)>(keys: seq<K>, gone: set<K>, k: K)
    ensures Without(Except(keys, gone), k) == Except(keys, gone + {k})
  {
    if keys != [] {
      var init := keys[..|keys| - 1];
      var last := keys[|keys| - 1];
      WithoutExcept(init, gone, k);
      WithoutAppend(Except(init, gone), if last in gone then [] else [last], k);
    }
  }

  lemma {:induction false} WithoutAppend<K(!new)>(a: seq<K>, b: seq<K>, k: K)
    ensures Without(a + b, k) == Without(a, k) + Without(b, k)
  {
    if a != [] {
      assert (a + b)[1..] == a[1..] + b;
      WithoutAppend(a[1..], b, k);
    } else {
      assert a + b == b;
    }
  }

  /** A JavaScript `Set`: distinct, in insertion order. `add` of a present id keeps its place. */
  function SetAdd<K(==,!new)>(s: seq<K>, x: K): (r: seq<K>)
    requires Distinct(s)
    ensures Distinct(r) && Elements(r) == Elements(s) + {x}
    ensures x in s ==> r == s
    ensures x !in s ==> r == s + [x]
  {
    if x in s then s else s + [x]
  }

  /** `set.delete(x)`. */
  function SetDelete<K(==,!new)>(s: seq<K>, x: K): (r: seq<K>)
    requires Distinct(s)
    ensures Distinct(r) && Elements(r) == Elements(s) - {x}
  {
    WithoutKeepsDistinct(s, x);
    Without(s, x)
  }

  datatype Map<K(==,!new), V> = Map(keys: seq<K>, entries: map<K, V>)
  {
    ghost predicate Valid()
    {
      Distinct(keys) && (forall k :: k in entries <==> k in keys)
    }

    predicate Has(k: K)
    {
      k in entries
    }

    /** `map.get(k)`. */
    function Get(k: K): Option<V>
    {
      if k in entries then Some(entries[k]) else None
    }

    /** `map.set(k, v)`: a new key goes last, a present key keeps its place. */
    function Set(k: K, v: V): (m: Map<K, V>)
      requires Valid()
      ensures m.Valid()
      ensures m.entries == entries[k := v]
      ensures k in entries ==> m.keys == keys
      ensures k !in entries ==> m.keys == keys + [k]
    {
      if k in entries then Map(keys, entries[k := v]) else Map(keys + [k], entries[k := v])
    }

    /** `map.delete(k)`. */
    function Delete(k: K): (m: Map<K, V>)
      requires Valid()
      ensures m.Valid()
      ensures m.entries == entries - {k}
      ensures m.keys == Without(keys, k)
    {
      WithoutKeepsDistinct(keys, k);
      Map(Without(keys, k), entries - {k})
    }

    /** The values of the given keys, in that order. */
    function ValuesOf(ks: seq<K>): (vs: seq<V>)
      requires forall k :: k in ks ==> k in entries
      ensures |vs| == |ks|
      ensures forall i :: 0 <= i < |ks| ==> vs[i] == entries[ks[i]]
    {
      if ks == [] then [] else [entries[ks[0]]] + ValuesOf(ks[1..])
    }

    /** `Array.from(map.values())`. */
    function Values(): (vs: seq<V>)
      requires Valid()
      ensures |vs| == |keys|
      ensures forall i :: 0 <= i < |keys| ==> vs[i] == entries[keys[i]]
    {
      ValuesOf(keys)
    }
  }

  /** A map whose key order is empty holds no entries. */
  lemma NoKeysNoEntries<K(!new), V>(m: Map<K, V>)
    requires m.Valid() && m.keys == []
    ensures m.entries == map[]
  {
    assert forall k :: k !in m.entries;
  }

  function Empty<K(==,!new), V>(): (m: Map<K, V>)
    ensures m.Valid() && m.keys == [] && m.entries == map[]
  {
    Map([], map[])
  }
}
