/** Diagnostics of a padded partial-ranking array: each row lists biomarker
    indices, padded with `-1`. `get_overlap_rate` is the fraction of the distinct
    listed items that occur more than once; the average partial-ranking length
    counts the entries that are not negative. */
module Overlap {

  /** `ndarray.flatten()`: the rows one after the other. */
  function Flatten(rows: seq<seq<int>>): seq<int>
  {
    if rows == [] then [] else rows[0] + Flatten(rows[1..])
  }

  /** `flat_data[flat_data != -1]`. */
  function DropSentinel(s: seq<int>): seq<int>
  {
    if s == [] then []
    else if s[0] == -1 then DropSentinel(s[1..])
    else [s[0]] + DropSentinel(s[1..])
  }

  /** `[x for x in order if x >= 0]`. */
  function KeepNonNegative(s: seq<int>): seq<int>
  {
    if s == [] then []
    else if s[0] >= 0 then [s[0]] + KeepNonNegative(s[1..])
    else KeepNonNegative(s[1..])
  }

  /** The listed items, with their multiplicities. */
  function Items(rows: seq<seq<int>>): multiset<int>
  {
    multiset(DropSentinel(Flatten(rows)))
  }

  /** `unique_items`. */
  function Unique(m: multiset<int>): set<int>
  {
    set x | x in m
  }

  /** The unique items whose count is greater than one. */
  function Repeated(m: multiset<int>): (r: set<int>)
    ensures r <= Unique(m)
  {
    set x | x in m && m[x] > 1
  }

  /** There is at least one distinct item when anything is listed, and the
      repeated items are among the distinct ones. */
  lemma CountBounds(m: multiset<int>, x: int)
    requires x in m
    ensures 0 < |Unique(m)|
    ensures |Repeated(m)| <= |Unique(m)|
    ensures |Repeated(m)| == |Unique(m)| <==> Repeated(m) == Unique(m)
  {
    assert x in Unique(m);
    var u, d := Unique(m), Repeated(m);
    assert u == d + (u - d);
    assert |u| == |d| + |u - d|;
    if |d| == |u| {
      assert u - d == {};
      assert u == d;
    }
  }

  /** `get_overlap_rate`: 0.0 when nothing but padding is listed, otherwise the
      number of repeated items over the number of distinct items. */
  function OverlapRate(rows: seq<seq<int>>): (r: real)
    ensures 0.0 <= r <= 1.0
    ensures Items(rows) == multiset{} ==> r == 0.0
  {
    var m := Items(rows);
    if |m| == 0 then 0.0
    else
      CountBounds(m, DropSentinel(Flatten(rows))[0]);
      |Repeated(m)| as real / |Unique(m)| as real
  }

  /** The rate is 0.0 exactly when no item is repeated, and 1.0 exactly when
      something is listed and every listed item is repeated. */
  lemma OverlapRateExtremes(rows: seq<seq<int>>)
    ensures OverlapRate(rows) == 0.0 <==> Repeated(Items(rows)) == {}
    ensures OverlapRate(rows) == 1.0 <==>
            Items(rows) != multiset{} && Repeated(Items(rows)) == Unique(Items(rows))
  {
    var m := Items(rows);
    if |m| > 0 {
      CountBounds(m, DropSentinel(Flatten(rows))[0]);
      var d, u := |Repeated(m)| as real, |Unique(m)| as real;
      assert OverlapRate(rows) * u == d;
    } else {
      assert Repeated(m) == {};
    }
  }

  lemma {:induction false} FlattenAppend(a: seq<seq<int>>, b: seq<seq<int>>)
    ensures Flatten(a + b) == Flatten(a) + Flatten(b)
  {
    if a != [] {
      assert (a + b)[1..] == a[1..] + b;
      FlattenAppend(a[1..], b);
    } else {
      assert a + b == b;
    }
  }

  /** Taking the same row out of two permutations of each other leaves two
      permutations of each other. */
  lemma RemoveMatchingRow(a: seq<seq<int>>, b: seq<seq<int>>, k: nat)
    requires multiset(a) == multiset(b) && |a| > 0 && k < |b| && b[k] == a[0]
    ensures multiset(a[1..]) == multiset(b[..k] + b[k + 1..])
  {
    assert b == b[..k] + [a[0]] + b[k + 1..];
    assert a == [a[0]] + a[1..];
    var rest := b[..k] + b[k + 1..];
    assert multiset(rest) == multiset(b[..k]) + multiset(b[k + 1..]);
    assert multiset(b) == multiset(rest) + multiset{a[0]};
    assert multiset(a) == multiset(a[1..]) + multiset{a[0]};
    forall x ensures multiset(a[1..])[x] == multiset(rest)[x] {
      assert multiset(a)[x] == multiset(b)[x];
    }
  }

  /** The multiset of cells depends only on the multiset of rows. */
  lemma {:induction false} FlattenRowPermutation(a: seq<seq<int>>, b: seq<seq<int>>)
    requires multiset(a) == multiset(b)
    ensures multiset(Flatten(a)) == multiset(Flatten(b))
    decreases |a|
  {
    if a == [] {
      assert |b| == |multiset(b)| == 0;
    } else {
      assert a[0] in multiset(b);
      var k :| 0 <= k < |b| && b[k] == a[0];
      RemoveMatchingRow(a, b, k);
      FlattenRowPermutation(a[1..], b[..k] + b[k + 1..]);
      assert b == (b[..k] + [a[0]]) + b[k + 1..];
      FlattenAppend(b[..k] + [a[0]], b[k + 1..]);
      FlattenAppend(b[..k], [a[0]]);
      FlattenAppend(b[..k], b[k + 1..]);
      assert Flatten([a[0]]) == a[0] + Flatten([]);
    }
  }

  /** Dropping the padding keeps every other value with its count. */
  lemma {:induction false} DropSentinelCount(s: seq<int>, x: int)
    ensures multiset(DropSentinel(s))[x] == if x == -1 then 0 else multiset(s)[x]
  {
    if s != [] {
      assert s == [s[0]] + s[1..];
      DropSentinelCount(s[1..], x);
    }
  }

  /** The overlap rate depends only on the multiset of cells: moving a cell to
      another position or another row does not change it. */
  lemma OverlapRateOfCells(a: seq<seq<int>>, b: seq<seq<int>>)
    requires multiset(Flatten(a)) == multiset(Flatten(b))
    ensures OverlapRate(a) == OverlapRate(b)
  {
    forall x ensures Items(a)[x] == Items(b)[x] {
      DropSentinelCount(Flatten(a), x);
      DropSentinelCount(Flatten(b), x);
    }
    assert Items(a) == Items(b);
  }

  /** Reordering the rows does not change the overlap rate. */
  lemma OverlapRateRowOrder(a: seq<seq<int>>, b: seq<seq<int>>)
    requires multiset(a) == multiset(b)
    ensures OverlapRate(a) == OverlapRate(b)
  {
    FlattenRowPermutation(a, b);
    OverlapRateOfCells(a, b);
  }

  /** A value is counted as a distinct item exactly when it is listed. */
  lemma UniqueIsListed(rows: seq<seq<int>>, x: int)
    ensures x in Unique(Items(rows)) <==> x in DropSentinel(Flatten(rows))
  {
  }

  /** Positional reading of the repeated count: an item is repeated exactly when
      it is listed at two different positions. */
  lemma RepeatedAtTwoPositions(rows: seq<seq<int>>, x: int)
    ensures x in Repeated(Items(rows)) <==>
            exists i, j :: 0 <= i < j < |DropSentinel(Flatten(rows))| &&
              DropSentinel(Flatten(rows))[i] == x && DropSentinel(Flatten(rows))[j] == x
  {
    var s := DropSentinel(Flatten(rows));
    assert Items(rows) == multiset(s);
    assert x in Repeated(Items(rows)) <==> multiset(s)[x] > 1;
    if multiset(s)[x] > 1 {
      var i, j := TwoPositionsOf(s, x);
      assert 0 <= i < j < |s| && s[i] == x && s[j] == x;
      assert exists i, j :: 0 <= i < j < |DropSentinel(Flatten(rows))| &&
              DropSentinel(Flatten(rows))[i] == x && DropSentinel(Flatten(rows))[j] == x;
    } else if exists i, j :: 0 <= i < j < |s| && s[i] == x && s[j] == x {
      var i, j :| 0 <= i < j < |s| && s[i] == x && s[j] == x;
      CountAtTwoPositions(s, i, j);
      assert false;
    }
  }

  lemma CountAtTwoPositions(s: seq<int>, i: nat, j: nat)
    requires i < j < |s| && s[i] == s[j]
    ensures multiset(s)[s[i]] > 1
  {
    assert s == s[..j] + [s[j]] + s[j + 1..];
    assert s[i] in multiset(s[..j]) by { assert s[..j][i] == s[i]; }
  }

  lemma TwoPositionsOf(s: seq<int>, x: int) returns (i: nat, j: nat)
    requires multiset(s)[x] > 1
    ensures i < j < |s| && s[i] == x && s[j] == x
  {
    assert x in s;
    var k :| 0 <= k < |s| && s[k] == x;
    assert s == s[..k] + [x] + s[k + 1..];
    assert multiset(s) == multiset(s[..k]) + multiset{x} + multiset(s[k + 1..]);
    if x in s[..k] {
      var h :| 0 <= h < k && s[..k][h] == x;
      i, j := h, k;
    } else {
      assert x in s[k + 1..];
      var h :| 0 <= h < |s| - k - 1 && s[k + 1..][h] == x;
      i, j := k, k + 1 + h;
    }
  }

  /** Listing every partial ranking twice makes every item repeated, so the rate
      becomes 1.0 as soon as one item is listed. */
  lemma OverlapRateDoubled(rows: seq<seq<int>>)
    requires Items(rows) != multiset{}
    ensures OverlapRate(rows + rows) == 1.0
  {
    FlattenAppend(rows, rows);
    DropSentinelAppend(Flatten(rows), Flatten(rows));
    var m := Items(rows + rows);
    assert m == Items(rows) + Items(rows);
    assert Repeated(m) == Unique(m) by {
      forall x | x in m ensures m[x] > 1 {
        assert m[x] == 2 * Items(rows)[x];
      }
    }
    OverlapRateExtremes(rows + rows);
  }

  lemma {:induction false} DropSentinelAppend(a: seq<int>, b: seq<int>)
    ensures DropSentinel(a + b) == DropSentinel(a) + DropSentinel(b)
  {
    if a != [] {
      assert (a + b)[1..] == a[1..] + b;
      DropSentinelAppend(a[1..], b);
    } else {
      assert a + b == b;
    }
  }

  lemma {:induction false} KeepNonNegativeAppend(a: seq<int>, b: seq<int>)
    ensures KeepNonNegative(a + b) == KeepNonNegative(a) + KeepNonNegative(b)
  {
    if a != [] {
      assert (a + b)[1..] == a[1..] + b;
      KeepNonNegativeAppend(a[1..], b);
    } else {
      assert a + b == b;
    }
  }

  /** Only `-1` is padding for the overlap rate, while the length filter drops
      every negative value: a row `[-2, -2]` counts as one repeated item for the
      first and as empty for the second. */
  lemma OtherNegativesCountAsItems()
    ensures OverlapRate([[-2, -2]]) == 1.0
    ensures KeepNonNegative(Flatten([[-2, -2]])) == []
  {
    var rows := [[-2, -2]];
    assert Flatten(rows) == [-2, -2] by {
      assert rows[1..] == [];
    }
    assert DropSentinel([-2, -2]) == [-2, -2] by {
      assert [-2, -2][1..] == [-2];
      assert [-2][1..] == [];
    }
    var m := Items(rows);
    assert m == multiset{-2, -2};
    assert Unique(m) == {-2};
    assert Repeated(m) == {-2};
    OverlapRateExtremes(rows);
  }

  /** `sum(len(x) for x in unpadded_ordering_array) / len(ordering_array)`,
      computed as save_csv.py does: first every row is unpadded, then the
      lengths are added up. The result is the number of non-negative cells of
      the whole array over the number of rows. */
  method AveragePartialRankingLength(rows: seq<seq<int>>) returns (avg: real)
    requires |rows| > 0
    ensures avg == |KeepNonNegative(Flatten(rows))| as real / |rows| as real
  {
    var unpadded: seq<seq<int>> := [];
    for i := 0 to |rows|
      invariant |unpadded| == i
      invariant forall k :: 0 <= k < i ==> unpadded[k] == KeepNonNegative(rows[k])
    {
      unpadded := unpadded + [KeepNonNegative(rows[i])];
    }
    var total := 0;
    for i := 0 to |unpadded|
      invariant total == |KeepNonNegative(Flatten(rows[..i]))|
    {
      assert rows[..i + 1] == rows[..i] + [rows[i]];
      FlattenAppend(rows[..i], [rows[i]]);
      assert Flatten([rows[i]]) == rows[i] by {
        assert Flatten([rows[i]]) == rows[i] + Flatten([]);
      }
      KeepNonNegativeAppend(Flatten(rows[..i]), rows[i]);
      total := total + |unpadded[i]|;
    }
    assert rows[..|rows|] == rows;
    avg := total as real / |rows| as real;
  }
}
