/** The biomarker index maps built from the keys of the parameter file: the names
    are sorted, `int2str = dict(zip(range(N), names))` and
    `str2int = dict(zip(names, range(N)))`. */
module Biomarkers {
  import opened Strings
  import opened Sorting
  import opened Dicts

  /** `range(n)` as a list. */
  function Range(n: nat): (r: seq<int>)
    ensures |r| == n && forall i :: 0 <= i < n ==> r[i] == i
  {
    seq(n, i => i)
  }

  /** `sorted(params.keys())`: an ordered permutation of the keys. */
  function SortedNames(keys: seq<string>): (names: seq<string>)
    ensures multiset(names) == multiset(keys)
    ensures forall i, j :: 0 <= i < j < |names| ==> StrLe(names[i], names[j])
  {
    StrLeTotalPreorder();
    SortBySorted(keys, StrLe);
    SortBy(keys, StrLe)
  }

  /** `dict(zip(biomarkers_int, biomarkers_str))`. */
  function Int2Str(keys: seq<string>): map<int, string>
  {
    ZipMap(Range(|keys|), SortedNames(keys))
  }

  /** `dict(zip(biomarkers_str, biomarkers_int))`. */
  function Str2Int(keys: seq<string>): map<string, int>
  {
    ZipMap(SortedNames(keys), Range(|keys|))
  }

  /** Sorted without repeats means strictly increasing. */
  lemma SortedNamesIncreasing(keys: seq<string>)
    requires Distinct(keys)
    ensures Distinct(SortedNames(keys))
    ensures forall i, j :: 0 <= i < j < |keys| ==> StrLt(SortedNames(keys)[i], SortedNames(keys)[j])
  {
    var names := SortedNames(keys);
    DistinctPermutation(keys, names);
  }

  /** The keys of `int2str` are exactly `0..N-1`. */
  lemma Int2StrDomain(keys: seq<string>)
    ensures forall i: int :: i in Int2Str(keys) <==> 0 <= i < |keys|
  {
    var n := |keys|;
    assert Range(n)[..Min(n, n)] == Range(n);
    forall i: int ensures i in Int2Str(keys) <==> 0 <= i < n {
      ZipMapKeys(Range(n), SortedNames(keys), i);
      if 0 <= i < n { assert Range(n)[i] == i; }
    }
  }

  /** `int2str` sends `i` to the `i`-th name in sorted order, so it is strictly
      increasing in `i`. */
  lemma Int2StrAt(keys: seq<string>, i: nat)
    requires Distinct(keys)
    requires i < |keys|
    ensures i in Int2Str(keys) && Int2Str(keys)[i] == SortedNames(keys)[i]
    ensures forall j :: i < j < |keys| ==> StrLt(Int2Str(keys)[i], SortedNames(keys)[j])
  {
    SortedNamesIncreasing(keys);
    ZipMapAt(Range(|keys|), SortedNames(keys), i);
  }

  /** `int2str` is a bijection from `0..N-1` onto the names, the `i`-th index
      going to the `i`-th name in sorted order. */
  lemma Int2StrBijective(keys: seq<string>)
    requires Distinct(keys)
    ensures forall i :: i in Int2Str(keys) <==> 0 <= i < |keys|
    ensures forall i :: 0 <= i < |keys| ==> Int2Str(keys)[i] == SortedNames(keys)[i] && SortedNames(keys)[i] in keys
    ensures forall a, b :: a in Int2Str(keys) && b in Int2Str(keys) && a != b ==> Int2Str(keys)[a] != Int2Str(keys)[b]
  {
    Int2StrDomain(keys);
    SortedNamesIncreasing(keys);
    forall i | 0 <= i < |keys| ensures Int2Str(keys)[i] == SortedNames(keys)[i] && SortedNames(keys)[i] in keys {
      Int2StrAt(keys, i);
      assert SortedNames(keys)[i] in multiset(keys);
    }
  }

  /** Every parameter name is the image of exactly one index. */
  lemma Int2StrValues(keys: seq<string>)
    requires Distinct(keys)
    ensures forall k :: k in keys <==> exists i :: i in Int2Str(keys) && Int2Str(keys)[i] == k
  {
    var names := SortedNames(keys);
    var n := |keys|;
    Int2StrDomain(keys);
    forall k ensures k in keys <==> exists i :: i in Int2Str(keys) && Int2Str(keys)[i] == k {
      if k in keys {
        assert k in multiset(names);
        var i :| 0 <= i < n && names[i] == k;
        Int2StrAt(keys, i);
      }
      if exists i :: i in Int2Str(keys) && Int2Str(keys)[i] == k {
        var i :| i in Int2Str(keys) && Int2Str(keys)[i] == k;
        Int2StrAt(keys, i);
        assert names[i] in multiset(keys);
      }
    }
  }

  /** `str2int` and `int2str` are mutually inverse between the names and `0..N-1`. */
  lemma Str2IntInverse(keys: seq<string>)
    requires Distinct(keys)
    ensures forall k :: k in Str2Int(keys) <==> k in keys
    ensures forall k :: k in Str2Int(keys) ==>
              Str2Int(keys)[k] in Int2Str(keys) && Int2Str(keys)[Str2Int(keys)[k]] == k
    ensures forall i :: i in Int2Str(keys) ==>
              Int2Str(keys)[i] in Str2Int(keys) && Str2Int(keys)[Int2Str(keys)[i]] == i
  {
    var names := SortedNames(keys);
    var n := |keys|;
    SortedNamesIncreasing(keys);
    Int2StrDomain(keys);
    forall i | 0 <= i < n ensures names[i] in Str2Int(keys) && Str2Int(keys)[names[i]] == i {
      ZipMapAt(names, Range(n), i);
    }
    assert names[..Min(n, n)] == names;
    forall k ensures k in Str2Int(keys) <==> k in keys {
      ZipMapKeys(names, Range(n), k);
      assert k in names <==> k in multiset(keys);
    }
    forall k | k in Str2Int(keys)
      ensures Str2Int(keys)[k] in Int2Str(keys) && Int2Str(keys)[Str2Int(keys)[k]] == k
    {
      assert k in multiset(names);
      var i :| 0 <= i < n && names[i] == k;
      Int2StrAt(keys, i);
    }
    forall i | i in Int2Str(keys)
      ensures Int2Str(keys)[i] in Str2Int(keys) && Str2Int(keys)[Int2Str(keys)[i]] == i
    {
      Int2StrAt(keys, i);
    }
  }
}
