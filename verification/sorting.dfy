/** A stable insertion sort by a caller-supplied "less than or equal" relation.
    It stands for Python's `sorted(..., key=...)` and for pandas' `sort_values`,
    both of which only promise an ordered permutation of their input; Python's
    `sorted` also promises stability, which is proved below as well. */
module Sorting {
  import opened Strings

  ghost predicate Total<T(!new)>(le: (T, T) -> bool) {
    forall a, b :: le(a, b) || le(b, a)
  }

  ghost predicate Transitive<T(!new)>(le: (T, T) -> bool) {
    forall a, b, c :: le(a, b) && le(b, c) ==> le(a, c)
  }

  /** Python's string order is a total preorder. */
  lemma StrLeTotalPreorder()
    ensures Total(StrLe) && Transitive(StrLe)
  {
    forall a, b ensures StrLe(a, b) || StrLe(b, a) {
      StrLtTrichotomy(a, b);
    }
    forall a, b, c | StrLe(a, b) && StrLe(b, c) ensures StrLe(a, c) {
      if a != b && b != c { StrLtTransitive(a, b, c); }
    }
  }

  /** Every element is `le` every later element. */
  ghost predicate SortedBy<T>(s: seq<T>, le: (T, T) -> bool) {
    forall i, j :: 0 <= i < j < |s| ==> le(s[i], s[j])
  }

  /** Inserts `x` after every element that is `le` it. */
  function Insert<T>(x: T, t: seq<T>, le: (T, T) -> bool): (r: seq<T>)
    ensures multiset(r) == multiset(t) + multiset{x}
    ensures |r| == |t| + 1
  {
    if t == [] then [x]
    else if le(t[0], x) then
      assert t == [t[0]] + t[1..];
      [t[0]] + Insert(x, t[1..], le)
    else [x] + t
  }

  /** Sorts by inserting the last element into the sorted prefix, so that an
      element never overtakes an earlier element it is equivalent to. */
  function SortBy<T>(s: seq<T>, le: (T, T) -> bool): (r: seq<T>)
    ensures multiset(r) == multiset(s)
    ensures |r| == |s|
  {
    if s == [] then []
    else
      assert s == s[..|s| - 1] + [s[|s| - 1]];
      Insert(s[|s| - 1], SortBy(s[..|s| - 1], le), le)
  }

  lemma {:induction false} InsertSorted<T(!new)>(x: T, t: seq<T>, le: (T, T) -> bool)
    requires Total(le) && Transitive(le)
    requires SortedBy(t, le)
    ensures SortedBy(Insert(x, t, le), le)
  {
    if t != [] {
      if le(t[0], x) {
        InsertSorted(x, t[1..], le);
        var rest := Insert(x, t[1..], le);
        forall k | 0 <= k < |rest| ensures le(t[0], rest[k]) {
          assert rest[k] in multiset(rest);
          if rest[k] != x {
            assert rest[k] in multiset(t[1..]);
            var j :| 0 <= j < |t[1..]| && t[1..][j] == rest[k];
            assert t[j + 1] == rest[k];
          }
        }
      } else {
        assert le(x, t[0]);
        var r := [x] + t;
        forall i, j | 0 <= i < j < |r| ensures le(r[i], r[j]) {
          if i == 0 && j > 1 {
            assert le(t[0], t[j - 1]);
          }
        }
      }
    }
  }

  /** The output of `SortBy` is ordered when `le` is a total preorder. */
  lemma {:induction false} SortBySorted<T(!new)>(s: seq<T>, le: (T, T) -> bool)
    requires Total(le) && Transitive(le)
    ensures SortedBy(SortBy(s, le), le)
  {
    if s != [] {
      SortBySorted(s[..|s| - 1], le);
      InsertSorted(s[|s| - 1], SortBy(s[..|s| - 1], le), le);
    }
  }

  /** The elements of `s` that `le` ranks equal to `v`, in their order in `s`. */
  function EquivalentTo<T(!new)>(s: seq<T>, le: (T, T) -> bool, v: T): (r: seq<T>)
    ensures |r| <= |s|
    ensures forall x :: x in r <==> x in s && le(x, v) && le(v, x)
  {
    if s == [] then []
    else (if le(s[0], v) && le(v, s[0]) then [s[0]] else []) + EquivalentTo(s[1..], le, v)
  }

  lemma {:induction false} EquivalentToAppend<T(!new)>(a: seq<T>, b: seq<T>, le: (T, T) -> bool, v: T)
    ensures EquivalentTo(a + b, le, v) == EquivalentTo(a, le, v) + EquivalentTo(b, le, v)
  {
    if a != [] {
      assert (a + b)[1..] == a[1..] + b;
      EquivalentToAppend(a[1..], b, le, v);
    } else {
      assert a + b == b;
    }
  }

  /** Inserting into a sorted list puts `x` after every element equivalent to it. */
  lemma {:induction false} InsertStable<T(!new)>(x: T, t: seq<T>, le: (T, T) -> bool, v: T)
    requires Transitive(le)
    requires SortedBy(t, le)
    ensures EquivalentTo(Insert(x, t, le), le, v) == EquivalentTo(t, le, v) + EquivalentTo([x], le, v)
  {
    if t == [] {
    } else if le(t[0], x) {
      var t1 := t[1..];
      SortedTail(t, le);
      InsertStable(x, t1, le, v);
      var rest := Insert(x, t1, le);
      var e0, e1, ex := EquivalentTo([t[0]], le, v), EquivalentTo(t1, le, v), EquivalentTo([x], le, v);
      assert Insert(x, t, le) == [t[0]] + rest;
      EquivalentToAppend([t[0]], rest, le, v);
      assert t == [t[0]] + t1;
      EquivalentToAppend([t[0]], t1, le, v);
      ConcatAssociative(e0, e1, ex);
    } else {
      assert Insert(x, t, le) == [x] + t;
      EquivalentToAppend([x], t, le, v);
      if le(x, v) && le(v, x) {
        NoneEquivalentAfter(x, t, le, v);
      } else {
        assert EquivalentTo([x], le, v) == [];
      }
    }
  }

  lemma ConcatAssociative<T>(a: seq<T>, b: seq<T>, c: seq<T>)
    ensures a + (b + c) == (a + b) + c
  {
  }

  lemma SortedTail<T>(t: seq<T>, le: (T, T) -> bool)
    requires SortedBy(t, le) && t != []
    ensures SortedBy(t[1..], le)
  {
    var t1 := t[1..];
    forall i, j | 0 <= i < j < |t1| ensures le(t1[i], t1[j]) { assert t1[i] == t[i + 1] && t1[j] == t[j + 1]; }
  }

  /** When the sorted `t` starts above `x`, no element of `t` is equivalent to `x`. */
  lemma NoneEquivalentAfter<T(!new)>(x: T, t: seq<T>, le: (T, T) -> bool, v: T)
    requires Transitive(le)
    requires SortedBy(t, le) && t != [] && !le(t[0], x)
    requires le(x, v) && le(v, x)
    ensures EquivalentTo(t, le, v) == []
  {
    forall z | z in t ensures !(le(z, v) && le(v, z)) {
      var k :| 0 <= k < |t| && t[k] == z;
      if k > 0 { assert le(t[0], z); }
    }
  }

  /** `SortBy` is stable: the elements equivalent to any `v` keep their order. */
  lemma {:induction false} SortByStable<T(!new)>(s: seq<T>, le: (T, T) -> bool, v: T)
    requires Total(le) && Transitive(le)
    ensures EquivalentTo(SortBy(s, le), le, v) == EquivalentTo(s, le, v)
  {
    if s != [] {
      var init, x := s[..|s| - 1], s[|s| - 1];
      SortByStable(init, le, v);
      SortBySorted(init, le);
      InsertStable(x, SortBy(init, le), le, v);
      assert s == init + [x];
      EquivalentToAppend(init, [x], le, v);
    }
  }

  /** The elements of `s` are pairwise different (the keys of a dictionary are). */
  predicate Distinct<T(==)>(s: seq<T>) {
    forall i, j :: 0 <= i < j < |s| ==> s[i] != s[j]
  }

  /** Two equal elements at different positions occur at least twice. */
  lemma TwoPositions<T>(s: seq<T>, i: nat, j: nat)
    requires i < j < |s| && s[i] == s[j]
    ensures multiset(s)[s[i]] >= 2
  {
    assert s == s[..j] + [s[j]] + s[j + 1..];
    assert s[i] in multiset(s[..j]) by { assert s[..j][i] == s[i]; }
  }

  /** A sequence without repeats holds every element at most once. */
  lemma {:induction false} DistinctCount<T>(s: seq<T>, x: T)
    requires Distinct(s)
    ensures multiset(s)[x] <= 1
  {
    if s != [] {
      assert s == [s[0]] + s[1..];
      DistinctCount(s[1..], x);
      if x == s[0] {
        assert x !in s[1..];
      }
    }
  }

  /** A permutation of a sequence without repeats has no repeats. */
  lemma DistinctPermutation<T>(s: seq<T>, t: seq<T>)
    requires Distinct(s) && multiset(s) == multiset(t)
    ensures Distinct(t)
  {
    forall i, j | 0 <= i < j < |t| ensures t[i] != t[j] {
      if t[i] == t[j] {
        TwoPositions(t, i, j);
        DistinctCount(s, t[i]);
      }
    }
  }

  /** The two parts of a list without repeats have none, and share no element. */
  lemma DistinctConcat<T>(s: seq<T>, t: seq<T>)
    requires Distinct(s + t)
    ensures Distinct(s) && Distinct(t)
    ensures forall x :: x in s ==> x !in t
  {
    var st := s + t;
    forall a, b | 0 <= a < b < |s| ensures s[a] != s[b] { assert st[a] == s[a] && st[b] == s[b]; }
    forall a, b | 0 <= a < b < |t| ensures t[a] != t[b] { assert st[|s| + a] == t[a] && st[|s| + b] == t[b]; }
    forall x | x in s ensures x !in t {
      var a :| 0 <= a < |s| && s[a] == x;
      forall b | 0 <= b < |t| ensures t[b] != x { assert st[a] == x && st[|s| + b] == t[b]; }
    }
  }

  /** `sorted(s)` of a Python set: the elements of `s`, each once, in order. The
      set is first listed in some order, then sorted. */
  method SortedSet<T(==,!new)>(s: set<T>, le: (T, T) -> bool) returns (r: seq<T>)
    requires Total(le) && Transitive(le)
    ensures forall x :: x in r <==> x in s
    ensures |r| == |s|
    ensures Distinct(r) && SortedBy(r, le)
  {
    var rest := s;
    var listed: seq<T> := [];
    while rest != {}
      invariant rest <= s
      invariant forall x :: x in listed <==> x in s && x !in rest
      invariant |listed| + |rest| == |s|
      invariant Distinct(listed)
      decreases |rest|
    {
      var x :| x in rest;
      listed := listed + [x];
      rest := rest - {x};
    }
    r := SortBy(listed, le);
    SortBySorted(listed, le);
    DistinctPermutation(listed, r);
    forall x ensures x in r <==> x in s {
      assert x in r <==> x in multiset(listed);
    }
  }
}
