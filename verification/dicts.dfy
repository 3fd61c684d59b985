/** Python dictionaries built by `dict(zip(keys, values))`, by `d.get(k, default)`
    and by the comprehension `{k: v for d in ds for k, v in d.items()}`. */
module Dicts {

  /** `dict.get(k, default)`. */
  function Get<K, V>(m: map<K, V>, k: K, default: V): (v: V)
    ensures k in m ==> v == m[k]
    ensures k !in m ==> v == default
  {
    if k in m then m[k] else default
  }

  /** `dict(zip(ks, vs))`: pairs are taken up to the shorter list, and a key that
      repeats keeps the value paired with its last occurrence. */
  function ZipMap<K, V>(ks: seq<K>, vs: seq<V>): map<K, V>
  {
    if ks == [] || vs == [] then map[]
    else map[ks[0] := vs[0]] + ZipMap(ks[1..], vs[1..])
  }

  function Min(a: nat, b: nat): nat { if a < b then a else b }

  /** The keys of `dict(zip(ks, vs))` are the keys that have a partner value. */
  lemma {:induction false} ZipMapKeys<K, V>(ks: seq<K>, vs: seq<V>, k: K)
    ensures k in ZipMap(ks, vs) <==> k in ks[..Min(|ks|, |vs|)]
  {
    if ks != [] && vs != [] {
      ZipMapKeys(ks[1..], vs[1..], k);
      assert ks[..Min(|ks|, |vs|)] == [ks[0]] + ks[1..][..Min(|ks| - 1, |vs| - 1)];
    }
  }

  /** With distinct keys, key `ks[i]` maps to `vs[i]`. */
  lemma {:induction false} ZipMapAt<K, V>(ks: seq<K>, vs: seq<V>, i: nat)
    requires i < |ks| && i < |vs|
    requires forall a, b :: 0 <= a < b < |ks| ==> ks[a] != ks[b]
    ensures ks[i] in ZipMap(ks, vs) && ZipMap(ks, vs)[ks[i]] == vs[i]
  {
    if i == 0 {
      ZipMapKeys(ks[1..], vs[1..], ks[0]);
      assert ks[0] !in ks[1..];
    } else {
      ZipMapAt(ks[1..], vs[1..], i - 1);
    }
  }

  /** Zipping a list with itself plus one renamed last element maps every key to
      itself except the last, which maps to its new name. */
  lemma {:induction false} ZipMapRenameLast<K>(t: seq<K>, x: K, y: K, k: K)
    ensures Get(ZipMap(t + [x], t + [y]), k, k) == if k == x then y else k
  {
    if t == [] {
      assert ZipMap([x], [y]) == map[x := y];
    } else {
      assert (t + [x])[1..] == t[1..] + [x];
      assert (t + [y])[1..] == t[1..] + [y];
      ZipMapRenameLast(t[1..], x, y, k);
    }
  }

  /** `{k: v for d in ds for k, v in d.items()}`: a later dictionary wins. */
  function Merge<K, V>(ds: seq<map<K, V>>): map<K, V>
  {
    if ds == [] then map[] else Merge(ds[..|ds| - 1]) + ds[|ds| - 1]
  }

  /** The index of the last dictionary in `ds` that holds `k`, if any. */
  function LastHolder<K, V>(ds: seq<map<K, V>>, k: K): (i: int)
    ensures -1 <= i < |ds|
    ensures i >= 0 ==> k in ds[i]
    ensures forall j :: i < j < |ds| ==> k !in ds[j]
  {
    if ds == [] then -1
    else if k in ds[|ds| - 1] then |ds| - 1
    else LastHolder(ds[..|ds| - 1], k)
  }

  /** The merged dictionary holds exactly the keys of the inputs, each with its
      value in the last input that holds it. */
  lemma {:induction false} MergeLookup<K, V>(ds: seq<map<K, V>>, k: K)
    ensures k in Merge(ds) <==> LastHolder(ds, k) >= 0
    ensures k in Merge(ds) ==> Merge(ds)[k] == ds[LastHolder(ds, k)][k]
  {
    if ds != [] && k !in ds[|ds| - 1] {
      MergeLookup(ds[..|ds| - 1], k);
    }
  }
}
