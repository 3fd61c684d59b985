/** The data generation driver run_gen.py: the per-unit dictionaries of every
    experiment are merged and normalised, and one partial-ranking data set is
    requested from the generator for every row of every unit's ordering array,
    restricted to the biomarkers that row ranks. */
module Generate {
  import opened Wrappers
  import opened Strings
  import opened Sorting
  import opened Dicts
  import opened UnitName
  import opened Biomarkers
  import opened NpConvert

  /** `combined = {k: v for d in all_dicts for k, v in d.items()}` followed by
      `convert_np_types(combined)`, which converts every value. */
  function Combined(ds: seq<map<string, PyValue>>): (c: map<string, PyValue>)
    ensures c.Keys == Merge(ds).Keys
  {
    map k | k in Merge(ds) :: Convert(Merge(ds)[k])
  }

  /** A unit is in `combined` when some experiment produced it; its value is the
      converted value from the last experiment that did, and it holds no numpy
      scalar or array. */
  lemma CombinedLookup(ds: seq<map<string, PyValue>>, k: string)
    ensures k in Combined(ds) <==> exists i :: 0 <= i < |ds| && k in ds[i]
    ensures k in Combined(ds) ==>
              Combined(ds)[k] == Convert(ds[LastHolder(ds, k)][k]) && Clean(Combined(ds)[k])
  {
    MergeLookup(ds, k);
    if k in Merge(ds) {
      ConvertIsClean(Merge(ds)[k]);
    }
  }

  // ---------------------------------------------------------------------------
  // Insertion-ordered dictionaries

  /** The keys of an insertion-ordered dictionary, written as its item list. */
  predicate HasKey<V>(items: seq<(string, V)>, k: string)
  {
    exists i :: 0 <= i < |items| && items[i].0 == k
  }

  predicate KeysDistinct<V>(items: seq<(string, V)>)
  {
    forall a, b :: 0 <= a < b < |items| ==> items[a].0 != items[b].0
  }

  /** `d[k] = v`: an existing key keeps its place and takes the new value, a new
      key goes last. */
  function Put<V>(items: seq<(string, V)>, k: string, v: V): (r: seq<(string, V)>)
    ensures |r| <= |items| + 1
  {
    if items == [] then [(k, v)]
    else if items[0].0 == k then [(k, v)] + items[1..]
    else [items[0]] + Put(items[1..], k, v)
  }

  /** After `d[k] = v` the dictionary holds `k: v` and every other entry it held
      before. */
  lemma {:induction false} PutEntry<V>(items: seq<(string, V)>, k: string, v: V, x: string, y: V)
    requires KeysDistinct(items)
    ensures (x, y) in Put(items, k, v) <==> (x == k && y == v) || ((x, y) in items && x != k)
  {
    if items != [] {
      var rest := items[1..];
      assert items == [items[0]] + rest;
      assert KeysDistinct(rest) by {
        forall a, b | 0 <= a < b < |rest| ensures rest[a].0 != rest[b].0 {
          assert rest[a] == items[a + 1] && rest[b] == items[b + 1];
        }
      }
      if items[0].0 == k {
        if (x, y) in rest {
          var i :| 0 <= i < |rest| && rest[i] == (x, y);
          assert items[i + 1].0 == x;
        }
      } else {
        PutEntry(rest, k, v, x, y);
      }
    }
  }

  /** `d[k] = v` keeps every key once. */
  lemma {:induction false} PutKeysDistinct<V>(items: seq<(string, V)>, k: string, v: V)
    requires KeysDistinct(items)
    ensures KeysDistinct(Put(items, k, v))
  {
    if items != [] && items[0].0 != k {
      var rest := items[1..];
      assert KeysDistinct(rest) by {
        forall a, b | 0 <= a < b < |rest| ensures rest[a].0 != rest[b].0 {
          assert rest[a] == items[a + 1] && rest[b] == items[b + 1];
        }
      }
      PutKeysDistinct(rest, k, v);
      var r := Put(rest, k, v);
      forall b | 0 <= b < |r| ensures items[0].0 != r[b].0 {
        var x, y := r[b].0, r[b].1;
        assert r[b] == (x, y);
        assert (x, y) in r;
        PutEntry(rest, k, v, x, y);
        if x != k {
          var i :| 0 <= i < |rest| && rest[i] == (x, y);
          assert items[i + 1] == r[b];
        }
      }
      assert Put(items, k, v) == [items[0]] + r;
    }
  }

  /** A new key is appended. */
  lemma {:induction false} PutAppends<V>(items: seq<(string, V)>, k: string, v: V)
    requires !HasKey(items, k)
    ensures Put(items, k, v) == items + [(k, v)]
  {
    if items != [] {
      assert !HasKey(items[1..], k) by {
        forall i | 0 <= i < |items[1..]| ensures items[1..][i].0 != k {
          assert items[1..][i] == items[i + 1];
        }
      }
      assert items[0].0 != k;
      PutAppends(items[1..], k, v);
      assert items == [items[0]] + items[1..];
    }
  }

  // ---------------------------------------------------------------------------
  // partial_params

  /** `{int2str[bm]: params[int2str[bm]] for bm in partial_ordering if bm in int2str}`.
      Every name in `int2str` is a key of `params`, as `int2str` is built from
      the keys of `params`. */
  function PartialParams<V>(po: seq<int>, int2str: map<int, string>, params: map<string, V>): seq<(string, V)>
    requires forall i :: i in int2str ==> int2str[i] in params
  {
    if po == [] then []
    else
      var pp := PartialParams(po[..|po| - 1], int2str, params);
      var bm := po[|po| - 1];
      if bm in int2str then Put(pp, int2str[bm], params[int2str[bm]]) else pp
  }

  /** The entries of the partial ordering that `int2str` knows, in order. */
  function Kept(po: seq<int>, int2str: map<int, string>): (ks: seq<int>)
    ensures forall x :: x in ks <==> x in po && x in int2str
  {
    if po == [] then []
    else
      assert po == po[..|po| - 1] + [po[|po| - 1]];
      Kept(po[..|po| - 1], int2str) + (if po[|po| - 1] in int2str then [po[|po| - 1]] else [])
  }

  /** The partial parameters hold each biomarker named by a known entry of the
      partial ordering, with its parameters, and nothing else; no name twice. */
  lemma {:induction false} PartialParamsEntries<V>(po: seq<int>, int2str: map<int, string>, params: map<string, V>)
    requires forall i :: i in int2str ==> int2str[i] in params
    ensures KeysDistinct(PartialParams(po, int2str, params))
    ensures forall x, y :: (x, y) in PartialParams(po, int2str, params) <==>
              x in params && y == params[x] &&
              exists i :: 0 <= i < |po| && po[i] in int2str && int2str[po[i]] == x
  {
    if po != [] {
      var init, bm := po[..|po| - 1], po[|po| - 1];
      PartialParamsEntries(init, int2str, params);
      var pp := PartialParams(init, int2str, params);
      if bm in int2str {
        PutKeysDistinct(pp, int2str[bm], params[int2str[bm]]);
      }
      forall x, y ensures (x, y) in PartialParams(po, int2str, params) <==>
          x in params && y == params[x] && exists i :: 0 <= i < |po| && po[i] in int2str && int2str[po[i]] == x
      {
        if bm in int2str {
          PutEntry(pp, int2str[bm], params[int2str[bm]], x, y);
        }
        if exists i :: 0 <= i < |po| && po[i] in int2str && int2str[po[i]] == x {
          var i :| 0 <= i < |po| && po[i] in int2str && int2str[po[i]] == x;
          if i < |init| { assert init[i] == po[i]; }
        }
        if exists i :: 0 <= i < |init| && init[i] in int2str && int2str[init[i]] == x {
          var i :| 0 <= i < |init| && init[i] in int2str && int2str[init[i]] == x;
          assert po[i] == init[i];
        }
      }
    }
  }

  /** When no biomarker is ranked twice, the partial parameters list the known
      entries in the order of the partial ordering. */
  lemma {:induction false} PartialParamsInOrder<V>(po: seq<int>, int2str: map<int, string>, params: map<string, V>)
    requires forall i :: i in int2str ==> int2str[i] in params
    requires forall a, b :: a in int2str && b in int2str && a != b ==> int2str[a] != int2str[b]
    requires Distinct(Kept(po, int2str))
    ensures var ks := Kept(po, int2str);
            PartialParams(po, int2str, params) ==
              seq(|ks|, i requires 0 <= i < |ks| => (int2str[ks[i]], params[int2str[ks[i]]]))
  {
    if po != [] {
      var init, bm := po[..|po| - 1], po[|po| - 1];
      var ks0 := Kept(init, int2str);
      var ks := Kept(po, int2str);
      var tail := if bm in int2str then [bm] else [];
      assert ks == ks0 + tail;
      DistinctConcat(ks0, tail);
      PartialParamsInOrder(init, int2str, params);
      var pp := PartialParams(init, int2str, params);
      if bm in int2str {
        var name := int2str[bm];
        forall i | 0 <= i < |pp| ensures pp[i].0 != name {
          assert ks0[i] in ks0;
        }
        PutAppends(pp, name, params[name]);
      }
    }
  }

  /** With `int2str` built from the parameter names, the partial parameters of a
      partial ordering whose ranked biomarkers are distinct are the biomarkers
      with indices `0 <= bm < N`, in the order they are ranked: the padding `-1`
      is dropped. */
  lemma PartialParamsOfRanking<V>(keys: seq<string>, params: map<string, V>, po: seq<int>)
    requires Distinct(keys)
    requires forall k :: k in keys <==> k in params
    requires Distinct(Kept(po, Int2Str(keys)))
    ensures forall i :: i in Int2Str(keys) ==> Int2Str(keys)[i] in params
    ensures var ks := Kept(po, Int2Str(keys));
            var pp := PartialParams(po, Int2Str(keys), params);
            && (forall x :: x in ks <==> x in po && 0 <= x < |keys|)
            && |pp| == |ks|
            && forall i :: 0 <= i < |ks| ==>
                 0 <= ks[i] < |keys| && pp[i].0 == SortedNames(keys)[ks[i]] &&
                 pp[i].0 in params && pp[i].1 == params[pp[i].0]
  {
    var int2str := Int2Str(keys);
    Int2StrBijective(keys);
    PartialParamsInOrder(po, int2str, params);
    var ks := Kept(po, int2str);
    forall i | 0 <= i < |ks| ensures 0 <= ks[i] < |keys| && int2str[ks[i]] == SortedNames(keys)[ks[i]] {
      assert ks[i] in ks;
    }
  }

  // ---------------------------------------------------------------------------
  // Output locations

  /** The data directories one run fills: `mp_method` itself, or for a Mallows
      method one directory `f"{mp_method}_T{t}"` per temperature `t` in
      `[1.0, 10.0]`, each temperature written as Python prints the float. */
  function DataDirNames(mpMethod: string): (dirs: seq<string>)
    ensures |dirs| == if Contains(mpMethod, "Mallows") then 2 else 1
    ensures forall k :: 0 <= k < |dirs| ==> |mpMethod| <= |dirs[k]| && dirs[k][..|mpMethod|] == mpMethod
  {
    if Contains(mpMethod, "Mallows") then [mpMethod + "_T1.0", mpMethod + "_T10.0"] else [mpMethod]
  }

  /** The JSON file of aggregated true orders the run writes for its `k`-th
      data directory. */
  function JsonFileName(mpMethod: string, k: nat): string
    requires k < |DataDirNames(mpMethod)|
  {
    if Contains(mpMethod, "Mallows") then
      "true_order_and_stages_" + mpMethod + "_" + (if k == 0 then "T1.0" else "T10.0") + ".json"
    else "true_order_and_stages_" + mpMethod + ".json"
  }

  /** The data directories are different, and the JSON written for each is the
      `true_order_and_stages_{data_dir}.json` that the drivers reading a data
      directory open. */
  lemma OutputNames(mpMethod: string)
    ensures Distinct(DataDirNames(mpMethod))
    ensures forall k :: 0 <= k < |DataDirNames(mpMethod)| ==>
              JsonFileName(mpMethod, k) == "true_order_and_stages_" + DataDirNames(mpMethod)[k] + ".json"
  {
    var dirs := DataDirNames(mpMethod);
    if |dirs| == 2 {
      assert dirs[0][|mpMethod| + 3] == '.' && dirs[1][|mpMethod| + 3] == '0';
    }
  }

  // ---------------------------------------------------------------------------
  // Partial-ranking generation

  /** One call `generate(experiment_name=E, params=partial_params,
      js=[int(J) * TIMES_MORE], rs=[float(R)], num_of_datasets_per_combination=1,
      output_dir=DATA_DIR, prefix=f"PR{idx}_m{M}")`. */
  datatype Job<V> = Job(experiment: string, params: seq<(string, V)>, j: int, r: real,
                        outputDir: string, prefix: string)

  /** Why the loop stops: a unit name the pattern rejects (the tuple unpacking of
      `None` raises), or an R that `float` rejects. */
  datatype GenError = BadUnitName(name: string) | BadR(name: string)

  /** The generator calls made, and the error that stopped the run, if any. */
  datatype Run<V> = Run(jobs: seq<Job<V>>, error: Option<GenError>)

  /** The prefix of the data file of the `idx`-th partial ranking. */
  function Prefix(idx: nat, m: string): string
  {
    "PR" + NatToString(idx) + "_m" + m
  }

  /** The calls for one unit, one per row of its ordering array. */
  function UnitJobs<V>(dir: string, c: Components, rows: seq<seq<int>>, int2str: map<int, string>,
                       params: map<string, V>, timesMore: int): (js: seq<Job<V>>)
    requires forall i :: i in int2str ==> int2str[i] in params
    ensures |js| == |rows|
  {
    seq(|rows|, idx requires 0 <= idx < |rows| =>
      Job(c.e, PartialParams(rows[idx], int2str, params), DigitsOrEmptyValue(c.j) * timesMore,
          DecimalValue(c.r), dir, Prefix(idx, c.m)))
  }

  /** One unit: its name is decoded, then each row is generated; `float(R)` is
      first evaluated for the first row, so an unreadable R stops the run only
      when the unit has a row. */
  function UnitRun<V>(dir: string, u: string, rows: seq<seq<int>>, int2str: map<int, string>,
                      params: map<string, V>, timesMore: int): Run<V>
    requires forall i :: i in int2str ==> int2str[i] in params
  {
    match ExtractComponents(u)
    case None => Run([], Some(BadUnitName(u)))
    case Some(c) =>
      if |rows| > 0 && !IsDecimal(c.r) then Run([], Some(BadR(u)))
      else Run(UnitJobs(dir, c, rows, int2str, params, timesMore), None)
  }

  /** The units in the order `combined.items()` lists them, until one fails. */
  function Jobs<V>(dir: string, units: seq<string>, orderings: map<string, seq<seq<int>>>,
                   int2str: map<int, string>, params: map<string, V>, timesMore: int): Run<V>
    requires forall u :: u in units ==> u in orderings
    requires forall i :: i in int2str ==> int2str[i] in params
  {
    if units == [] then Run([], None)
    else
      var prev := Jobs(dir, units[..|units| - 1], orderings, int2str, params, timesMore);
      if prev.error.Some? then prev
      else
        var u := units[|units| - 1];
        var next := UnitRun(dir, u, orderings[u], int2str, params, timesMore);
        Run(prev.jobs + next.jobs, next.error)
  }

  /** The loop over `combined.items()` and, inside it, over the rows of each
      unit's ordering array. `units` lists the keys of `combined` in iteration
      order and `orderings` gives each unit's `ordering_array`. */
  method GeneratePartialRankings<V>(dir: string, units: seq<string>, orderings: map<string, seq<seq<int>>>,
                                    int2str: map<int, string>, params: map<string, V>, timesMore: int)
    returns (jobs: seq<Job<V>>, error: Option<GenError>)
    requires forall u :: u in units ==> u in orderings
    requires forall i :: i in int2str ==> int2str[i] in params
    ensures Run(jobs, error) == Jobs(dir, units, orderings, int2str, params, timesMore)
  {
    jobs := [];
    error := None;
    var n := 0;
    while n < |units| && error.None?
      invariant 0 <= n <= |units|
      invariant Run(jobs, error) == Jobs(dir, units[..n], orderings, int2str, params, timesMore)
    {
      var u := units[n];
      var unitJobs, unitError := UnitPartialRankings(dir, u, orderings[u], int2str, params, timesMore);
      jobs := jobs + unitJobs;
      error := unitError;
      assert units[..n + 1][..n] == units[..n];
      n := n + 1;
    }
    JobsStop(dir, units, n, orderings, int2str, params, timesMore);
  }

  /** The body of the loop for one unit. */
  method UnitPartialRankings<V>(dir: string, u: string, rows: seq<seq<int>>, int2str: map<int, string>,
                                params: map<string, V>, timesMore: int)
    returns (jobs: seq<Job<V>>, error: Option<GenError>)
    requires forall i :: i in int2str ==> int2str[i] in params
    ensures Run(jobs, error) == UnitRun(dir, u, rows, int2str, params, timesMore)
  {
    var parts := ExtractComponents(u);
    if parts.None? {
      jobs, error := [], Some(BadUnitName(u));
    } else {
      jobs, error := RowJobs(dir, u, parts.value, rows, int2str, params, timesMore);
    }
  }

  /** `for idx, partial_ordering in enumerate(ordering_array)` for a decoded unit. */
  method RowJobs<V>(dir: string, u: string, c: Components, rows: seq<seq<int>>, int2str: map<int, string>,
                    params: map<string, V>, timesMore: int)
    returns (jobs: seq<Job<V>>, error: Option<GenError>)
    requires forall i :: i in int2str ==> int2str[i] in params
    ensures error == (if |rows| > 0 && !IsDecimal(c.r) then Some(BadR(u)) else None)
    ensures jobs == if error.None? then UnitJobs(dir, c, rows, int2str, params, timesMore) else []
  {
    jobs := [];
    error := None;
    ghost var all := UnitJobs(dir, c, rows, int2str, params, timesMore);
    for idx := 0 to |rows|
      invariant jobs == all[..idx]
      invariant idx > 0 ==> IsDecimal(c.r)
    {
      if !IsDecimal(c.r) {
        error := Some(BadR(u));
        jobs := [];
        return;
      }
      var partialParams := PartialParams(rows[idx], int2str, params);
      var job := Job(c.e, partialParams, DigitsOrEmptyValue(c.j) * timesMore, DecimalValue(c.r), dir,
                     "PR" + NatToString(idx) + "_m" + c.m);
      assert all[idx] == job;
      jobs := jobs + [job];
      assert all[..idx + 1] == all[..idx] + [all[idx]];
    }
    assert all[..|rows|] == all;
  }

  /** Once a unit has failed, the later units change nothing. */
  lemma {:induction false} JobsStop<V>(dir: string, units: seq<string>, n: nat, orderings: map<string, seq<seq<int>>>,
                                       int2str: map<int, string>, params: map<string, V>, timesMore: int)
    requires n <= |units|
    requires forall u :: u in units ==> u in orderings
    requires forall i :: i in int2str ==> int2str[i] in params
    requires n < |units| ==> Jobs(dir, units[..n], orderings, int2str, params, timesMore).error.Some?
    ensures Jobs(dir, units, orderings, int2str, params, timesMore)
            == Jobs(dir, units[..n], orderings, int2str, params, timesMore)
    decreases |units|
  {
    if n < |units| {
      var init := units[..|units| - 1];
      assert init[..n] == units[..n];
      JobsStop(dir, init, n, orderings, int2str, params, timesMore);
    } else {
      assert units[..n] == units;
    }
  }

  /** The total number of rows of the ordering arrays of `units`. */
  function TotalRows(units: seq<string>, orderings: map<string, seq<seq<int>>>): nat
    requires forall u :: u in units ==> u in orderings
  {
    if units == [] then 0
    else TotalRows(units[..|units| - 1], orderings) + |orderings[units[|units| - 1]]|
  }

  /** One unit completes exactly when its name decodes and, if it has a row,
      its R is readable; it then makes one call per row. */
  lemma UnitRunComplete<V>(dir: string, u: string, rows: seq<seq<int>>, int2str: map<int, string>,
                           params: map<string, V>, timesMore: int)
    requires forall i :: i in int2str ==> int2str[i] in params
    ensures var run := UnitRun(dir, u, rows, int2str, params, timesMore);
            && (run.error.None? <==>
                  ExtractComponents(u).Some? && (|rows| > 0 ==> IsDecimal(ExtractComponents(u).value.r)))
            && (run.error.None? ==> |run.jobs| == |rows|)
  {
  }

  /** The run completes exactly when every unit name decodes and every unit
      with a row has a readable R; then it makes one call per row of every
      ordering array. */
  lemma {:induction false} JobsComplete<V>(dir: string, units: seq<string>, orderings: map<string, seq<seq<int>>>,
                                           int2str: map<int, string>, params: map<string, V>, timesMore: int)
    requires forall u :: u in units ==> u in orderings
    requires forall i :: i in int2str ==> int2str[i] in params
    ensures var run := Jobs(dir, units, orderings, int2str, params, timesMore);
            && (run.error.None? <==>
                  forall u :: u in units ==>
                    ExtractComponents(u).Some? && (|orderings[u]| > 0 ==> IsDecimal(ExtractComponents(u).value.r)))
            && (run.error.None? ==> |run.jobs| == TotalRows(units, orderings))
  {
    if units != [] {
      var init, u := units[..|units| - 1], units[|units| - 1];
      JobsComplete(dir, init, orderings, int2str, params, timesMore);
      UnitRunComplete(dir, u, orderings[u], int2str, params, timesMore);
      assert forall w :: w in units <==> w in init || w == u;
    }
  }

  /** The digits of `idx` stand between `PR` and the first `_` of its prefix. */
  lemma PrefixDigits(idx: nat, m: string)
    ensures var p, d := Prefix(idx, m), NatToString(idx);
            2 + |d| < |p| && p[2..2 + |d|] == d && p[2 + |d|] == '_' &&
            forall i :: 2 <= i < 2 + |d| ==> IsDigit(p[i])
  {
    var p, d := Prefix(idx, m), NatToString(idx);
    assert p == "PR" + d + ("_m" + m);
  }

  /** The calls for one unit write to different data files: their prefixes
      `PR{idx}_m{M}` are pairwise different. */
  lemma UnitPrefixesDistinct(m: string, a: nat, b: nat)
    requires a != b
    ensures Prefix(a, m) != Prefix(b, m)
  {
    var pa, pb := Prefix(a, m), Prefix(b, m);
    var sa, sb := NatToString(a), NatToString(b);
    PrefixDigits(a, m);
    PrefixDigits(b, m);
    if |sa| < |sb| {
      assert pa[2 + |sa|] != pb[2 + |sa|];
    } else if |sb| < |sa| {
      assert pa[2 + |sb|] != pb[2 + |sb|];
    } else if sa == sb {
      NatToStringInjective(a, b);
    } else {
      assert pa[2..2 + |sa|] != pb[2..2 + |sb|];
    }
  }

  /** Each call of a decoded unit asks for `J * TIMES_MORE` subjects of the
      unit's experiment at the unit's R, with the unit's own partial ranking. */
  lemma UnitJobAt<V>(dir: string, c: Components, rows: seq<seq<int>>, int2str: map<int, string>,
                     params: map<string, V>, timesMore: int, idx: nat)
    requires forall i :: i in int2str ==> int2str[i] in params
    requires IsDigits(c.j) && idx < |rows|
    ensures var job := UnitJobs(dir, c, rows, int2str, params, timesMore)[idx];
            && job.experiment == c.e && job.outputDir == dir
            && job.j == DigitsValue(c.j) * timesMore
            && job.r == DecimalValue(c.r)
            && job.prefix == Prefix(idx, c.m)
            && job.params == PartialParams(rows[idx], int2str, params)
  {
    DigitsValueAgrees(c.j);
  }
}
