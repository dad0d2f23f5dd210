/** Python's `dict`: a finite map that remembers the order in which its keys
    were first inserted. Assigning to an existing key keeps its position,
    deleting a key drops it from the order, and `values()` follows the order. */
module OrderedDicts {
  import opened Wrappers

  datatype ODict<K(==,!new), V> = ODict(keys: seq<K>, items: map<K, V>) {
    /** The order lists every key exactly once. */
    ghost predicate Valid()
    {
      && (forall i, j :: 0 <= i < j < |keys| ==> keys[i] != keys[j])
      && (forall k :: k in items <==> k in keys)
    }
  }

  function Empty<K(==,!new), V>(): (d: ODict<K, V>)
    ensures d.Valid() && d.items == map[] && d.keys == []
  {
    ODict([], map[])
  }

  /** `d.get(k)`. */
  function Lookup<K(==,!new), V>(d: ODict<K, V>, k: K): (r: Option<V>)
    ensures r.Some? <==> k in d.items
    ensures r.Some? ==> r.value == d.items[k]
  {
    if k in d.items then Some(d.items[k]) else None
  }

  /** `d[k] = v`. */
  function Put<K(==,!new), V>(d: ODict<K, V>, k: K, v: V): (r: ODict<K, V>)
    requires d.Valid()
    ensures r.Valid()
    ensures r.items == d.items[k := v]
    ensures k in d.items ==> r.keys == d.keys
    ensures k !in d.items ==> r.keys == d.keys + [k]
  {
    if k in d.items then ODict(d.keys, d.items[k := v]) else ODict(d.keys + [k], d.items[k := v])
  }

  /** The order `ks` without the key `k`. */
  function Without<K(==,!new)>(ks: seq<K>, k: K): (r: seq<K>)
    ensures forall x :: x in r <==> x in ks && x != k
    ensures |r| <= |ks|
    ensures (forall i, j :: 0 <= i < j < |ks| ==> ks[i] != ks[j]) ==>
              forall i, j :: 0 <= i < j < |r| ==> r[i] != r[j]
  {
    if ks == [] then []
    else if ks[0] == k then Without(ks[1..], k)
    else
      var rest := Without(ks[1..], k);
      assert (forall i, j :: 0 <= i < j < |ks| ==> ks[i] != ks[j]) ==> ks[0] !in rest by {
        if ks[0] in rest {
          var j :| 0 <= j < |ks[1..]| && ks[1..][j] == ks[0];
          assert ks[j + 1] == ks[0];
        }
      }
      [ks[0]] + rest
  }

  /** `del d[k]` when `k` is present; no change otherwise. */
  function Remove<K(==,!new), V>(d: ODict<K, V>, k: K): (r: ODict<K, V>)
    requires d.Valid()
    ensures r.Valid()
    ensures r.items == d.items - {k}
    ensures k !in d.items ==> r == d
  {
    if k in d.items then ODict(Without(d.keys, k), d.items - {k}) else d
  }

  /** `list(d.values())`. */
  function ValuesOf<K(==,!new), V>(d: ODict<K, V>): (r: seq<V>)
    requires d.Valid()
    ensures |r| == |d.keys| == |d.items|
    ensures forall i :: 0 <= i < |r| ==> r[i] == d.items[d.keys[i]]
  {
    assert |d.items| == |d.keys| by { DistinctKeysCount(d); }
    seq(|d.keys|, i requires 0 <= i < |d.keys| => d.items[d.keys[i]])
  }

  /** A valid dict has as many entries as its order has positions. */
  lemma DistinctKeysCount<K(!new), V>(d: ODict<K, V>)
    requires d.Valid()
    ensures |d.items| == |d.keys|
  {
    SetOfDistinct(d.keys);
    assert d.items.Keys == set k | k in d.keys;
  }

  lemma {:induction false} SetOfDistinct<K(!new)>(ks: seq<K>)
    requires forall i, j :: 0 <= i < j < |ks| ==> ks[i] != ks[j]
    ensures |set k | k in ks| == |ks|
  {
    if ks != [] {
      SetOfDistinct(ks[1..]);
      assert (set k | k in ks) == (set k | k in ks[1..]) + {ks[0]};
      assert ks[0] !in ks[1..];
    }
  }

  /** Every value `list(d.values())` returns is stored in `d`, and every
      stored value is returned. */
  lemma ValuesAreStored<K(!new), V>(d: ODict<K, V>, v: V)
    requires d.Valid()
    ensures v in ValuesOf(d) <==> exists k :: k in d.items && d.items[k] == v
  {
    var vs := ValuesOf(d);
    if v in vs {
      var i :| 0 <= i < |vs| && vs[i] == v;
      assert d.keys[i] in d.items;
    }
    if exists k :: k in d.items && d.items[k] == v {
      var k :| k in d.items && d.items[k] == v;
      var i :| 0 <= i < |d.keys| && d.keys[i] == k;
      assert vs[i] == v;
    }
  }

  /** `ValuesAreStored` for every value at once. */
  lemma AllValuesAreStored<K(!new), V>(d: ODict<K, V>)
    requires d.Valid()
    ensures forall v :: v in ValuesOf(d) <==> exists k :: k in d.items && d.items[k] == v
  {
    forall v ensures v in ValuesOf(d) <==> exists k :: k in d.items && d.items[k] == v {
      ValuesAreStored(d, v);
    }
  }

  /** Put changes the entry under `k` and no other. */
  lemma PutFrame<K(!new), V>(d: ODict<K, V>, k: K, v: V, other: K)
    requires d.Valid() && other != k
    ensures k in Put(d, k, v).items && Put(d, k, v).items[k] == v
    ensures other in Put(d, k, v).items <==> other in d.items
    ensures other in d.items ==> Put(d, k, v).items[other] == d.items[other]
  {
  }
}
