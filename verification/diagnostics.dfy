/** The summary step of save_csv.py: the files that were expected but not found,
    the records in the order of the results table, and the sorted diagnostic
    lists `missing_files.txt`, `na_combinations.txt` and `failed_files.txt`. */
module Diagnostics {
  import opened Wrappers
  import opened Strings
  import opened Sorting
  import opened UnitName
  import opened ExpectedFiles
  import opened Dicts
  import opened Reconcile

  /** `sort_values(by=['J', 'R', 'E', 'M', 'algo'])`: lexicographic on the five
      columns, `E` and `algo` being the pretty names. */
  predicate RecordLe(x: Record, y: Record)
  {
    x.j < y.j || (x.j == y.j &&
    (x.r < y.r || (x.r == y.r &&
    (StrLt(x.e, y.e) || (x.e == y.e &&
    (x.m < y.m || (x.m == y.m && StrLe(x.algo, y.algo))))))))
  }

  /** Python's order on `(data_framework, algo, fname)` tuples. */
  predicate TripleLe(x: Triple, y: Triple)
  {
    StrLt(x.0, y.0) || (x.0 == y.0 && (StrLt(x.1, y.1) || (x.1 == y.1 && StrLe(x.2, y.2))))
  }

  lemma RecordLeTotalPreorder()
    ensures Total(RecordLe) && Transitive(RecordLe)
  {
    forall x, y ensures RecordLe(x, y) || RecordLe(y, x) {
      StrLtTrichotomy(x.e, y.e);
      StrLtTrichotomy(x.algo, y.algo);
    }
    forall x, y, z | RecordLe(x, y) && RecordLe(y, z) ensures RecordLe(x, z) {
      StrLeTotalPreorder();
      if StrLt(x.e, y.e) && StrLt(y.e, z.e) { StrLtTransitive(x.e, y.e, z.e); }
    }
  }

  /** Tuple order is a total order: total, transitive and antisymmetric, so the
      sorted list of a set is unique. */
  lemma TripleLeTotalOrder()
    ensures Total(TripleLe) && Transitive(TripleLe)
    ensures forall x, y :: TripleLe(x, y) && TripleLe(y, x) ==> x == y
  {
    forall x, y ensures TripleLe(x, y) || TripleLe(y, x) {
      StrLtTrichotomy(x.0, y.0);
      StrLtTrichotomy(x.1, y.1);
      StrLtTrichotomy(x.2, y.2);
    }
    forall x, y, z | TripleLe(x, y) && TripleLe(y, z) ensures TripleLe(x, z) {
      StrLeTotalPreorder();
      if StrLt(x.0, y.0) && StrLt(y.0, z.0) { StrLtTransitive(x.0, y.0, z.0); }
      if StrLt(x.1, y.1) && StrLt(y.1, z.1) { StrLtTransitive(x.1, y.1, z.1); }
    }
    forall x, y | TripleLe(x, y) && TripleLe(y, x) ensures x == y {
      StrLtTrichotomy(x.0, y.0);
      StrLtTrichotomy(x.1, y.1);
      StrLtTrichotomy(x.2, y.2);
    }
  }

  /** What the run writes: the records of `all_results.csv`, the rows of
      `missing_files.txt`, the lines of `na_combinations.txt` and the rows of
      `failed_files.txt`. An empty list stands for a file that is not written. */
  datatype Summary = Summary(
    results: seq<Record>, missing: seq<Triple>, naCombinations: seq<string>,
    failed: seq<(Triple, Reason)>)

  /** `main` of save_csv.py: the expected files are generated, the result
      directories are walked, and the summary is written. */
  method Summarize(cfg: Config, env: Env) returns (summary: Summary)
    requires Loadable(cfg, env)
    ensures var tally := RunFrom(Start, Visits(cfg, env), OutcomeOf(cfg, BuildTables(cfg), env));
            && multiset(summary.results) == multiset(tally.records)
            && SortedBy(summary.results, RecordLe)
            && summary.failed == tally.failed
    ensures forall t :: t in summary.missing <==>
              t.0 in cfg.dataDirs && t.1 in AllAlgos(cfg) && OnGrid(cfg.grid, t.2) && t.2 !in Files(env, t.0, t.1)
    ensures Distinct(summary.missing) && SortedBy(summary.missing, TripleLe)
    ensures forall x :: x in summary.naCombinations <==> exists t :: t in summary.missing && x == Stem(t.2)
    ensures Distinct(summary.naCombinations) && SortedBy(summary.naCombinations, StrLe)
    ensures forall p :: p in summary.failed ==> p.0 !in summary.missing
  {
    var expected := GenerateExpectedFiles(cfg.grid, cfg.dataDirs, AllAlgos(cfg));
    var found, failed, records := ReconcileResults(cfg, env);
    MissingMembers(cfg, env);
    summary := Report(expected, found, failed, records);
  }

  /** The summary of one walk. The missing files are the expected triples that
      were not found; each is listed once, in tuple order, and so is each
      distinct unit name among them. */
  method Report(expected: set<Triple>, found: set<Triple>, failed: seq<(Triple, Reason)>, records: seq<Record>)
    returns (summary: Summary)
    ensures multiset(summary.results) == multiset(records) && SortedBy(summary.results, RecordLe)
    ensures summary.failed == failed
    ensures forall t :: t in summary.missing <==> t in expected && t !in found
    ensures Distinct(summary.missing) && SortedBy(summary.missing, TripleLe)
    ensures forall x :: x in summary.naCombinations <==> exists t :: t in summary.missing && x == Stem(t.2)
    ensures Distinct(summary.naCombinations) && SortedBy(summary.naCombinations, StrLe)
  {
    var missing := expected - found;

    RecordLeTotalPreorder();
    var results := SortBy(records, RecordLe);
    SortBySorted(records, RecordLe);

    TripleLeTotalOrder();
    var missingRows := SortedSet(missing, TripleLe);

    var stems := set t | t in missing :: Stem(t.2);
    StrLeTotalPreorder();
    var na := SortedSet(stems, StrLe);

    summary := Summary(results, missingRows, na, failed);
  }

  /** `expected_files - found_files` holds exactly the expected triples whose
      file is not in the listing of its directory, and a failed file was found,
      so it is never reported missing. */
  lemma MissingMembers(cfg: Config, env: Env)
    requires Loadable(cfg, env)
    ensures var tally := RunFrom(Start, Visits(cfg, env), OutcomeOf(cfg, BuildTables(cfg), env));
            && (forall t :: t in OverDirs(cfg.grid, AllAlgos(cfg), cfg.dataDirs) && t !in tally.found <==>
                  t.0 in cfg.dataDirs && t.1 in AllAlgos(cfg) && OnGrid(cfg.grid, t.2) && t.2 !in Files(env, t.0, t.1))
            && (forall p :: p in tally.failed ==> p.0 in tally.found)
  {
    var tables := BuildTables(cfg);
    var vs := Visits(cfg, env);
    var tally := RunFrom(Start, vs, OutcomeOf(cfg, tables, env));
    FoundAreListed(cfg, tables, env);
    RunFromFailed(Start, vs, OutcomeOf(cfg, tables, env));
    RunFromFound(Start, vs, OutcomeOf(cfg, tables, env));
    forall p | p in tally.failed ensures p.0 in tally.found {
      assert (p.0, p.1) in tally.failed;
    }
    forall t ensures t in OverDirs(cfg.grid, AllAlgos(cfg), cfg.dataDirs) && t !in tally.found <==>
        t.0 in cfg.dataDirs && t.1 in AllAlgos(cfg) && OnGrid(cfg.grid, t.2) && t.2 !in Files(env, t.0, t.1)
    {
      ExpectedMembers(cfg.grid, AllAlgos(cfg), cfg.dataDirs, t);
    }
  }

  /** A found file whose name is on the grid passes every name check, so it can
      only fail on its content. */
  lemma GridFileFailsOnContent(cfg: Config, env: Env, t: Triple)
    requires GridWellFormed(cfg.grid)
    requires Ready(env, t) && OnGrid(cfg.grid, t.2)
    ensures var o := OutcomeAt(cfg, BuildTables(cfg), env, t);
            o.Failed? ==> o.reason == BadJson || o.reason == MissingMetrics || o.reason == UnexpectedError
  {
    var g := cfg.grid;
    var j, r, e, m :| j in g.js && r in g.rs && e in g.experiments && 0 <= m < g.nVariants &&
      t.2 == ResultFileName(j, r, e, m);
    ExpectedNameValid(cfg, j, r, e, m);
    var info := env.trueOrders[t.0][Stem(t.2)];
    ClassifyContentFailure(cfg, BuildTables(cfg), t.0, t.1, t.2, Get(env.contents, t, Unreadable),
                           info.nPartialRankings, AverageLength(info.orderingArray));
  }

  /** Every line of `na_combinations.txt` is the unit name of a configured
      (J, R, E, M), and `extract_components` reads that unit back from it. */
  lemma MissingStemIsUnit(g: Grid, f: string)
    requires GridWellFormed(g) && OnGrid(g, f)
    ensures exists j, r, e, m :: j in g.js && r in g.rs && e in g.experiments && 0 <= m < g.nVariants &&
              Stem(f) == Join(Components(NatToString(j), r, e, NatToString(m))) &&
              ExtractComponents(Stem(f)) == Some(Components(NatToString(j), r, e, NatToString(m)))
  {
    var j, r, e, m :| j in g.js && r in g.rs && e in g.experiments && 0 <= m < g.nVariants &&
      f == ResultFileName(j, r, e, m);
    ResultFileNameStem(j, r, e, m);
    ResultFileNameRoundTrip(j, r, e, m);
  }
}
