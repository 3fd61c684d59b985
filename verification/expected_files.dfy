/** `generate_expected_files` of save_csv.py: every (data directory, algorithm,
    result file name) triple the configuration asks for. */
module ExpectedFiles {
  import opened Strings
  import opened UnitName

  /** The configuration values that shape the grid: `JS`, `RS` (each R as the
      text that `f"{R}"` prints for it), `EXPERIMENT_NAMES` and `N_VARIANTS`. */
  datatype Grid = Grid(js: seq<nat>, rs: seq<string>, experiments: seq<string>, nVariants: int)

  /** (data_dir, algo, fname). */
  type Triple = (string, string, string)

  /** `range(N_VARIANTS)` for one (J, R, E): the innermost loop. */
  function Variants(d: string, a: string, j: nat, r: string, e: string, n: int): (s: seq<Triple>)
    ensures |s| == if n > 0 then n else 0
  {
    seq(if n > 0 then n else 0, (m: int) requires 0 <= m => (d, a, ResultFileName(j, r, e, m)))
  }

  /** The loop over `EXPERIMENT_NAMES`, appending in order. */
  function OverExperiments(d: string, a: string, j: nat, r: string, es: seq<string>, n: int): seq<Triple>
  {
    if es == [] then []
    else OverExperiments(d, a, j, r, es[..|es| - 1], n) + Variants(d, a, j, r, es[|es| - 1], n)
  }

  function OverRs(d: string, a: string, j: nat, g: Grid, rs: seq<string>): seq<Triple>
  {
    if rs == [] then []
    else OverRs(d, a, j, g, rs[..|rs| - 1]) + OverExperiments(d, a, j, rs[|rs| - 1], g.experiments, g.nVariants)
  }

  function OverJs(d: string, a: string, g: Grid, js: seq<nat>): seq<Triple>
  {
    if js == [] then []
    else OverJs(d, a, g, js[..|js| - 1]) + OverRs(d, a, js[|js| - 1], g, g.rs)
  }

  function OverAlgos(d: string, g: Grid, algos: seq<string>): seq<Triple>
  {
    if algos == [] then []
    else OverAlgos(d, g, algos[..|algos| - 1]) + OverJs(d, algos[|algos| - 1], g, g.js)
  }

  /** The list the six nested loops build, in the order they build it. */
  function OverDirs(g: Grid, algos: seq<string>, dirs: seq<string>): seq<Triple>
  {
    if dirs == [] then []
    else OverDirs(g, algos, dirs[..|dirs| - 1]) + OverAlgos(dirs[|dirs| - 1], g, algos)
  }

  /** The file name of unit (J, R, E, M) is on the grid. */
  ghost predicate OnGrid(g: Grid, f: string)
  {
    exists j, r, e, m :: j in g.js && r in g.rs && e in g.experiments && 0 <= m < g.nVariants &&
      f == ResultFileName(j, r, e, m)
  }

  /** `generate_expected_files`: the six nested loops append every combination,
      and the list is turned into a set. The loops over J, R, E and M are in
      `AppendUnits`. */
  method GenerateExpectedFiles(g: Grid, dirs: seq<string>, algos: seq<string>) returns (expected: set<Triple>)
    ensures forall t :: t in expected <==> t in OverDirs(g, algos, dirs)
  {
    var list: seq<Triple> := [];
    for i := 0 to |dirs|
      invariant list == OverDirs(g, algos, dirs[..i])
    {
      ghost var atDir := list;
      for k := 0 to |algos|
        invariant list == atDir + OverAlgos(dirs[i], g, algos[..k])
      {
        list := AppendUnits(list, dirs[i], algos[k], g);
        assert algos[..k + 1][..k] == algos[..k];
      }
      assert algos[..|algos|] == algos;
      assert dirs[..i + 1][..i] == dirs[..i];
    }
    assert dirs[..|dirs|] == dirs;
    expected := set t | t in list;
  }

  /** The loop over `JS` for one data directory and one algorithm. */
  method AppendUnits(list0: seq<Triple>, d: string, a: string, g: Grid) returns (list: seq<Triple>)
    ensures list == list0 + OverJs(d, a, g, g.js)
  {
    list := list0;
    for l := 0 to |g.js|
      invariant list == list0 + OverJs(d, a, g, g.js[..l])
    {
      list := AppendRs(list, d, a, g.js[l], g);
      assert g.js[..l + 1][..l] == g.js[..l];
    }
    assert g.js[..|g.js|] == g.js;
  }

  /** The loop over `RS` for one J. */
  method AppendRs(list0: seq<Triple>, d: string, a: string, j: nat, g: Grid) returns (list: seq<Triple>)
    ensures list == list0 + OverRs(d, a, j, g, g.rs)
  {
    list := list0;
    for p := 0 to |g.rs|
      invariant list == list0 + OverRs(d, a, j, g, g.rs[..p])
    {
      list := AppendExperiments(list, d, a, j, g.rs[p], g);
      assert g.rs[..p + 1][..p] == g.rs[..p];
    }
    assert g.rs[..|g.rs|] == g.rs;
  }

  /** The loop over `EXPERIMENT_NAMES` for one J and one R. */
  method AppendExperiments(list0: seq<Triple>, d: string, a: string, j: nat, r: string, g: Grid)
    returns (list: seq<Triple>)
    ensures list == list0 + OverExperiments(d, a, j, r, g.experiments, g.nVariants)
  {
    list := list0;
    for q := 0 to |g.experiments|
      invariant list == list0 + OverExperiments(d, a, j, r, g.experiments[..q], g.nVariants)
    {
      list := AppendVariants(list, d, a, j, r, g.experiments[q], g.nVariants);
      assert g.experiments[..q + 1][..q] == g.experiments[..q];
    }
    assert g.experiments[..|g.experiments|] == g.experiments;
  }

  /** The innermost loop: `for M in range(N_VARIANTS)`. */
  method AppendVariants(list0: seq<Triple>, d: string, a: string, j: nat, r: string, e: string, n: int)
    returns (list: seq<Triple>)
    ensures list == list0 + Variants(d, a, j, r, e, n)
  {
    list := list0;
    var m := 0;
    while m < n
      invariant 0 <= m <= (if n > 0 then n else 0)
      invariant list == list0 + Variants(d, a, j, r, e, m)
    {
      var fname := ResultFileName(j, r, e, m);
      list := list + [(d, a, fname)];
      m := m + 1;
    }
    if n <= 0 {
      assert Variants(d, a, j, r, e, m) == Variants(d, a, j, r, e, n);
    }
  }

  lemma VariantsMembers(d: string, a: string, j: nat, r: string, e: string, n: int, t: Triple)
    ensures t in Variants(d, a, j, r, e, n) <==>
            t.0 == d && t.1 == a && exists m :: 0 <= m < n && t.2 == ResultFileName(j, r, e, m)
  {
    var s := Variants(d, a, j, r, e, n);
    if exists m :: 0 <= m < n && t.2 == ResultFileName(j, r, e, m) {
      var m :| 0 <= m < n && t.2 == ResultFileName(j, r, e, m);
      if t.0 == d && t.1 == a { assert s[m] == t; }
    }
  }

  lemma {:induction false} ExperimentsMembers(d: string, a: string, j: nat, r: string, es: seq<string>, n: int, t: Triple)
    ensures t in OverExperiments(d, a, j, r, es, n) <==>
            t.0 == d && t.1 == a && exists e, m :: e in es && 0 <= m < n && t.2 == ResultFileName(j, r, e, m)
  {
    if es != [] {
      var init, last := es[..|es| - 1], es[|es| - 1];
      ExperimentsMembers(d, a, j, r, init, n, t);
      VariantsMembers(d, a, j, r, last, n, t);
      assert es == init + [last];
      if exists e, m :: e in es && 0 <= m < n && t.2 == ResultFileName(j, r, e, m) {
        var e, m :| e in es && 0 <= m < n && t.2 == ResultFileName(j, r, e, m);
        assert e in init || e == last;
      }
    }
  }

  lemma {:induction false} RsMembers(d: string, a: string, j: nat, g: Grid, rs: seq<string>, t: Triple)
    ensures t in OverRs(d, a, j, g, rs) <==>
            t.0 == d && t.1 == a &&
            exists r, e, m :: r in rs && e in g.experiments && 0 <= m < g.nVariants &&
              t.2 == ResultFileName(j, r, e, m)
  {
    if rs != [] {
      var init, last := rs[..|rs| - 1], rs[|rs| - 1];
      RsMembers(d, a, j, g, init, t);
      ExperimentsMembers(d, a, j, last, g.experiments, g.nVariants, t);
      assert rs == init + [last];
      if exists r, e, m :: r in rs && e in g.experiments && 0 <= m < g.nVariants && t.2 == ResultFileName(j, r, e, m) {
        var r, e, m :| r in rs && e in g.experiments && 0 <= m < g.nVariants && t.2 == ResultFileName(j, r, e, m);
        assert r in init || r == last;
      }
    }
  }

  lemma {:induction false} JsMembers(d: string, a: string, g: Grid, js: seq<nat>, t: Triple)
    ensures t in OverJs(d, a, g, js) <==>
            t.0 == d && t.1 == a &&
            exists j, r, e, m :: j in js && r in g.rs && e in g.experiments && 0 <= m < g.nVariants &&
              t.2 == ResultFileName(j, r, e, m)
  {
    if js != [] {
      var init, last := js[..|js| - 1], js[|js| - 1];
      JsMembers(d, a, g, init, t);
      RsMembers(d, a, last, g, g.rs, t);
      assert js == init + [last];
      if exists j, r, e, m :: j in js && r in g.rs && e in g.experiments && 0 <= m < g.nVariants && t.2 == ResultFileName(j, r, e, m) {
        var j, r, e, m :| j in js && r in g.rs && e in g.experiments && 0 <= m < g.nVariants && t.2 == ResultFileName(j, r, e, m);
        assert j in init || j == last;
      }
    }
  }

  lemma {:induction false} AlgosMembers(d: string, g: Grid, algos: seq<string>, t: Triple)
    ensures t in OverAlgos(d, g, algos) <==> t.0 == d && t.1 in algos && OnGrid(g, t.2)
  {
    if algos != [] {
      var init, last := algos[..|algos| - 1], algos[|algos| - 1];
      AlgosMembers(d, g, init, t);
      JsMembers(d, last, g, g.js, t);
      assert algos == init + [last];
    }
  }

  /** The expected set holds a triple exactly when its data directory and its
      algorithm are configured and its file name is `j{J}_r{R}_E{E}_m{M}_results.json`
      for a configured J, R, E and an M in `range(N_VARIANTS)`. */
  lemma {:induction false} ExpectedMembers(g: Grid, algos: seq<string>, dirs: seq<string>, t: Triple)
    ensures t in OverDirs(g, algos, dirs) <==> t.0 in dirs && t.1 in algos && OnGrid(g, t.2)
  {
    if dirs != [] {
      var init, last := dirs[..|dirs| - 1], dirs[|dirs| - 1];
      ExpectedMembers(g, algos, init, t);
      AlgosMembers(last, g, algos, t);
      assert dirs == init + [last];
    }
  }
}
