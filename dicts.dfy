/** A Python dict with string keys: a finite map together with the order in which its keys were
    first inserted, which is the order `items()` visits them in. */
module Dicts {
  import opened Seqs

  datatype DictRep<V> = DictRep(keys: seq<string>, values: map<string, V>)

  ghost predicate WellFormed<V>(d: DictRep<V>) {
    Distinct(d.keys) && forall k :: k in d.values <==> k in d.keys
  }

  type Dict<V> = d: DictRep<V> | WellFormed(d) witness DictRep([], map[])

  function Empty<V>(): (r: Dict<V>)
    ensures r.keys == [] && r.values == map[]
  {
    DictRep([], map[])
  }

  /** d[k] = v: an existing key keeps its place, a new key goes to the end. */
  function Put<V>(d: Dict<V>, k: string, v: V): (r: Dict<V>)
    ensures r.values == d.values[k := v]
    ensures k in d.values ==> r.keys == d.keys
    ensures k !in d.values ==> r.keys == d.keys + [k]
  {
    if k in d.values then DictRep(d.keys, d.values[k := v])
    else
      var r := DictRep(d.keys + [k], d.values[k := v]);
      assert Distinct(r.keys);
      r
  }

  /** The dict comprehension {k: f(v) for k, v in d.items()}: same keys, same order. */
  function MapValues<V, W>(d: Dict<V>, f: V -> W): (r: Dict<W>)
    ensures r.keys == d.keys
    ensures forall k :: k in d.values ==> k in r.values && r.values[k] == f(d.values[k])
  {
    DictRep(d.keys, map k | k in d.values :: f(d.values[k]))
  }

  /** {k: v for k, v in d.items() if p(v)}: the entries that pass, in their original order. */
  function Filter<V>(d: Dict<V>, p: V -> bool): (r: Dict<V>)
    ensures forall k :: k in r.values <==> k in d.values && p(d.values[k])
    ensures forall k :: k in r.values ==> r.values[k] == d.values[k]
  {
    var ks := FilterKeys(d, d.keys, p);
    DictRep(ks, map k | k in ks :: d.values[k])
  }

  function FilterKeys<V>(d: Dict<V>, ks: seq<string>, p: V -> bool): (r: seq<string>)
    requires forall k :: k in ks ==> k in d.values
    requires Distinct(ks)
    ensures Distinct(r)
    ensures forall k :: k in r <==> k in ks && p(d.values[k])
  {
    if ks == [] then []
    else
      var rest := FilterKeys(d, ks[1..], p);
      assert ks[0] !in ks[1..];
      if p(d.values[ks[0]]) then [ks[0]] + rest else rest
  }
}
