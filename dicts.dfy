/** A Python `dict` with string keys, as the pool uses it: `d[k] = v` keeps an existing key in
    its place and appends a new one, `d.pop(k)` removes a key, and
    `list(d.keys())` lists the keys in insertion order. */
module Dicts {

  function Without(s: seq<string>, k: string): (r: seq<string>)
    ensures forall x :: x in r <==> x in s && x != k
    ensures |r| <= |s|
  {
    if s == [] then []
    else if s[0] == k then Without(s[1..], k)
    else [s[0]] + Without(s[1..], k)
  }

  predicate Distinct(s: seq<string>)
  {
    forall i, j :: 0 <= i < j < |s| ==> s[i] != s[j]
  }

  lemma {:induction false} WithoutDistinct(s: seq<string>, k: string)
    requires Distinct(s)
    ensures Distinct(Without(s, k))
    ensures |Without(s, k)| == if k in s then |s| - 1 else |s|
  {
    if s != [] {
      WithoutDistinct(s[1..], k);
      assert s[0] !in s[1..];
    }
  }

  /** `keys` is `list(d.keys())`; `entries` maps each key to its value. */
  datatype Dict<V> = Dict(keys: seq<string>, entries: map<string, V>)
  {
    ghost predicate Valid()
    {
      Distinct(keys) && (forall k :: k in keys <==> k in entries)
    }

    /** `len(d)` */
    function Size(): nat { |keys| }
  }

  function Empty<V>(): (d: Dict<V>)
    ensures d.Valid() && d.Size() == 0
  {
    Dict([], map[])
  }

  /** `d[k] = v` */
  function Store<V>(d: Dict<V>, k: string, v: V): (r: Dict<V>)
    requires d.Valid()
    ensures r.Valid()
    ensures r.entries == d.entries[k := v]
    ensures r.Size() == if k in d.entries then d.Size() else d.Size() + 1
    ensures k in d.entries ==> r.keys == d.keys
  {
    if k in d.entries then Dict(d.keys, d.entries[k := v])
    else Dict(d.keys + [k], d.entries[k := v])
  }

  /** `d.pop(k)` for a key that is present. */
  function Pop<V>(d: Dict<V>, k: string): (r: Dict<V>)
    requires d.Valid() && k in d.entries
    ensures r.Valid()
    ensures r.entries == d.entries - {k}
    ensures r.Size() == d.Size() - 1
  {
    WithoutDistinct(d.keys, k);
    Dict(Without(d.keys, k), d.entries - {k})
  }
}
