/** Python's `dict` with string keys, which remembers insertion order: a new key goes
    to the end, assigning to an existing key keeps its place. Registries and the
    property bag are dicts whose order is observable (`list(d.values())`,
    `list(d.keys())`, iteration in `for k, v in d.items()`). */
module Dicts {
  import opened V = Values

  datatype OrderedMap<V> = OrderedMap(keys: seq<string>, m: map<string, V>)

  /** `keys[i]`, named so that the distinctness of the keys is only used where a
      proof asks for it. */
  function KeyAt(keys: seq<string>, i: int): string
    requires 0 <= i < |keys|
  {
    keys[i]
  }

  predicate WellFormed<V>(d: OrderedMap<V>) {
    && (forall i, j | 0 <= i < j < |d.keys| :: KeyAt(d.keys, i) != KeyAt(d.keys, j))
    && (forall i | 0 <= i < |d.keys| :: d.keys[i] in d.m)
    && (forall k | k in d.m :: k in d.keys)
  }

  type Dict<V> = d: OrderedMap<V> | WellFormed(d) witness OrderedMap([], map[])

  /** `{}`. */
  function Empty<V>(): (r: Dict<V>)
    ensures r.keys == [] && r.m == map[]
  {
    OrderedMap([], map[])
  }

  /** `d[k] = v`. */
  function Put<V>(d: Dict<V>, k: string, v: V): (r: Dict<V>)
    ensures r.m == d.m[k := v]
    ensures k in d.m ==> r.keys == d.keys
    ensures k !in d.m ==> r.keys == d.keys + [k]
  {
    if k in d.m then OrderedMap(d.keys, d.m[k := v])
    else
      var r := OrderedMap(d.keys + [k], d.m[k := v]);
      assert k !in d.keys;
      assert forall i, j | 0 <= i < j < |r.keys| :: KeyAt(r.keys, i) != KeyAt(r.keys, j) by {
        forall i, j | 0 <= i < j < |r.keys|
          ensures KeyAt(r.keys, i) != KeyAt(r.keys, j)
        {
          if j < |d.keys| {
            assert KeyAt(d.keys, i) != KeyAt(d.keys, j);
          }
        }
      }
      r
  }

  /** `d.get(k)`, with `None` for a missing key. */
  function Lookup<V>(d: Dict<V>, k: string): (r: Option<V>)
    ensures r.Some? <==> k in d.m
    ensures r.Some? ==> r.value == d.m[k]
  {
    if k in d.m then Some(d.m[k]) else None
  }

  /** `list(d.values())`: the values in key order. */
  function ValueList<V>(d: Dict<V>): (r: seq<V>)
    ensures |r| == |d.keys|
    ensures forall i :: 0 <= i < |r| ==> r[i] == d.m[d.keys[i]]
  {
    seq(|d.keys|, i requires 0 <= i < |d.keys| => d.m[d.keys[i]])
  }

  /** A dictionary's keys are pairwise distinct. */
  lemma DistinctKeys<V>(d: Dict<V>)
    ensures forall i, j :: 0 <= i < j < |d.keys| ==> d.keys[i] != d.keys[j]
  {
    forall i, j | 0 <= i < j < |d.keys|
      ensures d.keys[i] != d.keys[j]
    {
      assert KeyAt(d.keys, i) != KeyAt(d.keys, j);
    }
  }

  /** Assigning into a merged map is assigning into its right operand. */
  lemma MergeAssign<V>(a: map<string, V>, d: map<string, V>, k: string, v: V)
    ensures (a + d)[k := v] == a + d[k := v]
  {}
}
