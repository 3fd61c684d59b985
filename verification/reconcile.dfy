/** The reconciliation in `main` of save_csv.py: every result file found on disk
    is recorded as found, then classified by a fixed chain of checks into a
    failure with its reason, a silent skip or a record; the expected files that
    were not found are the missing ones. */
module Reconcile {
  import opened Wrappers
  import opened Strings
  import opened Dicts
  import opened UnitName
  import opened ExpectedFiles
  import Overlap

  /** The settings of config.yaml that the reconciliation reads. */
  datatype Config = Config(
    testedMethods: seq<string>,   // TESTED_MP_METHODS
    dataDirs: seq<string>,        // MP_DATA_DIR
    grid: Grid)                   // JS, RS, EXPERIMENT_NAMES, N_VARIANTS

  /** `ALL_ALGOS`: the tested methods and the baseline `saebm`. */
  function AllAlgos(cfg: Config): seq<string>
  {
    cfg.testedMethods + ["saebm"]
  }

  /** `algos`: the same list with the baseline shown as `EBM`. */
  function PrettyAlgos(cfg: Config): seq<string>
  {
    cfg.testedMethods + ["EBM"]
  }

  /** `titles` of save_csv.py, paired by position with `EXPERIMENT_NAMES`. */
  const Titles: seq<string> := [
    "Exp 1: S + Ordinal kj (DM) + X (Normal)",
    "Exp 2: S + Ordinal kj (DM) + X (Non-Normal)",
    "Exp 3: S + Ordinal kj (Uniform) + X (Normal)",
    "Exp 4: S + Ordinal kj (Uniform) + X (Non-Normal)",
    "Exp 8: S + Continuous kj (Uniform) + X (Sigmoid)",
    "Exp 9: S + Continuous kj (Skewed) + X (Sigmoid)",
    "Exp 5: S + Continuous kj (Uniform) + X (Normal)",
    "Exp 6: S + Continuous kj (Uniform) + X (Non-Normal)",
    "Exp 0: S + Continuous kj (Skewed) + X (Normal)",
    "Exp 7: S + Continuous kj (Skewed) + X (Non-Normal)",
    "Exp 10: xi (Normal) + Continuous kj (Skewed) + X (Sigmoid)",
    "Exp 11: xi (Normal) + Continuous kj (Skewed) + X (Normal)"
  ]

  /** `exp_nums`, paired by position with `titles`. */
  const ExpNums: seq<int> := [1, 2, 3, 4, 8, 9, 5, 6, 0, 7, 10, 11]

  /** `CONVERT_E_DICT`. */
  function ConvertE(cfg: Config): map<string, string>
  {
    ZipMap(cfg.grid.experiments, Titles)
  }

  /** `CONVERT_ALGO_DICT`. */
  function ConvertAlgo(cfg: Config): map<string, string>
  {
    ZipMap(AllAlgos(cfg), PrettyAlgos(cfg))
  }

  /** `GET_E_NUM`. */
  function GetENum(): map<string, int>
  {
    ZipMap(Titles, ExpNums)
  }

  /** What `json.load` makes of a result file: it cannot be opened or read, it is
      not JSON, it is a JSON object with numeric fields, or it is some other JSON
      value. For the other values, `container` says whether `in` can be applied
      (a list or a string; a number, `true`, `false` or `null` raise `TypeError`),
      and `holdsBothKeys` whether both metric names are `in` it. */
  datatype ResultFile =
    | Unreadable
    | NotJson
    | Json(fields: map<string, real>)
    | OtherJson(container: bool, holdsBothKeys: bool)

  /** The entry of `true_order_and_stages_{data_dir}.json` for one unit. The
      entry is taken to hold both `ordering_array` and `n_partial_rankings`;
      save_csv.py reads them outside its `try` (lines 131 and 137), so a missing
      key would end the script with `KeyError`, which is not modelled. */
  datatype UnitInfo = UnitInfo(orderingArray: seq<seq<int>>, nPartialRankings: int)

  /** The reasons written to `failed_files.txt`, with the value each message shows. */
  datatype Reason =
    | BadFormat                 // "Invalid filename format"
    | BadNumeric                // "Invalid numeric format in filename"
    | BadJ(j: nat)              // "Invalid J value {J}"
    | BadR(r: real)             // "Invalid R value {R}"
    | BadExperiment(e: string)  // "Invalid experiment {E}"
    | BadM(m: nat)              // "Invalid M value {M}"
    | BadJson                   // "Invalid JSON format"
    | MissingMetrics            // "Missing metrics in JSON"
    | UnexpectedError           // "Unexpected error: ..."

  /** One row of `all_results.csv`. */
  datatype Record = Record(
    dataFramework: string, j: nat, r: real, e: string, m: nat, algo: string, eNum: int,
    nPartialRankings: int, kendallsTau: real, averageLength: real, mae: real)

  /** What becomes of one found file. */
  datatype Outcome = Failed(reason: Reason) | Skipped | Recorded(record: Record)

  /** The numeric values `float(R)` of the configured `RS`. */
  function RValues(rs: seq<string>): (vs: seq<real>)
    ensures |vs| == |rs| && forall k :: 0 <= k < |rs| ==> vs[k] == DecimalValue(rs[k])
  {
    seq(|rs|, k requires 0 <= k < |rs| => DecimalValue(rs[k]))
  }

  /** The unit a valid file name stands for, with J, R and M read as numbers. */
  datatype Unit = Unit(j: nat, r: real, e: string, m: nat)

  /** The checks on the file name, in the order save_csv.py makes them: format, numeric,
      J, R, E, M. `int(J)` and `int(M)` cannot fail on digits, so only `float(R)`
      makes the numeric check fail. */
  function CheckName(cfg: Config, fname: string): Result<Unit, Reason>
  {
    match ExtractResultComponents(fname)
    case None => Failure(BadFormat)
    case Some(c) =>
      if !IsDecimal(c.r) then Failure(BadNumeric)
      else
        var j, r, m := DigitsOrEmptyValue(c.j), DecimalValue(c.r), DigitsOrEmptyValue(c.m);
        if j !in cfg.grid.js then Failure(BadJ(j))
        else if r !in RValues(cfg.grid.rs) then Failure(BadR(r))
        else if c.e !in cfg.grid.experiments then Failure(BadExperiment(c.e))
        else if !(0 <= m < cfg.grid.nVariants) then Failure(BadM(m))
        else Success(Unit(j, r, c.e, m))
  }

  /** The file name passes the format, numeric, J, R, E and M checks. */
  predicate NameValid(cfg: Config, fname: string)
  {
    CheckName(cfg, fname).Success?
  }

  /** The reasons given by the checks on the file name. */
  predicate NameReason(r: Reason)
  {
    r.BadFormat? || r.BadNumeric? || r.BadJ? || r.BadR? || r.BadExperiment? || r.BadM?
  }

  /** A name that fails gives a name reason. */
  lemma CheckNameFailure(cfg: Config, fname: string)
    ensures CheckName(cfg, fname).Failure? ==> NameReason(CheckName(cfg, fname).error)
  {
  }

  /** A name fails on its format exactly when the pattern does not match it. */
  lemma CheckNameFormat(cfg: Config, fname: string)
    ensures CheckName(cfg, fname) == Failure(BadFormat) <==> ExtractResultComponents(fname).None?
  {
  }

  /** A name that passes stands for a configured unit whose numbers are read from
      the groups of the pattern. */
  lemma CheckNameSuccess(cfg: Config, fname: string)
    requires NameValid(cfg, fname)
    ensures ExtractResultComponents(fname).Some?
    ensures var u, c := CheckName(cfg, fname).value, ExtractResultComponents(fname).value;
            && u.j == DigitsOrEmptyValue(c.j) && u.j in cfg.grid.js
            && IsDecimal(c.r) && u.r == DecimalValue(c.r) && u.r in RValues(cfg.grid.rs)
            && u.e == c.e && u.e in cfg.grid.experiments
            && u.m == DigitsOrEmptyValue(c.m) && u.m < cfg.grid.nVariants
  {
  }

  /** The three dictionaries built before the loop. */
  datatype Tables = Tables(convertE: map<string, string>, convertAlgo: map<string, string>, getENum: map<string, int>)

  function BuildTables(cfg: Config): Tables
  {
    Tables(ConvertE(cfg), ConvertAlgo(cfg), GetENum())
  }

  /** `GET_E_NUM.get(CONVERT_E_DICT.get(E, E), 0)`. */
  function ENum(tables: Tables, e: string): int
  {
    Get(tables.getENum, Get(tables.convertE, e, e), 0)
  }

  /** The classification of one found file: the name checks, then reading the
      JSON, then the two metrics; a file that passes them all is skipped without
      a trace when its experiment number is 0 (or it has none), and recorded
      otherwise. A JSON value that is not an object fails with "Unexpected error"
      when `in` raises on it or when reading a metric out of it raises, and with
      "Missing metrics" when a metric name is not in it. */
  function Classify(cfg: Config, tables: Tables, d: string, a: string, fname: string, content: ResultFile,
                    nPartialRankings: int, averageLength: real): Outcome
  {
    match CheckName(cfg, fname)
    case Failure(reason) => Failed(reason)
    case Success(u) =>
      match content
      case Unreadable => Failed(UnexpectedError)
      case NotJson => Failed(BadJson)
      case Json(fields) =>
        if "kendalls_tau" !in fields || "mean_absolute_error" !in fields then Failed(MissingMetrics)
        else
          var algoPretty := Get(tables.convertAlgo, a, a);
          var ePretty := Get(tables.convertE, u.e, u.e);
          var eNum := Get(tables.getENum, ePretty, 0);
          if eNum == 0 then Skipped
          else Recorded(Record(d, u.j, u.r, ePretty, u.m, algoPretty, eNum, nPartialRankings,
                               fields["kendalls_tau"], averageLength, fields["mean_absolute_error"]))
      case OtherJson(container, holdsBothKeys) =>
        if !container then Failed(UnexpectedError)
        else if !holdsBothKeys then Failed(MissingMetrics)
        else if ENum(tables, u.e) == 0 then Skipped
        else Failed(UnexpectedError)
  }

  /** A file fails on its name exactly when the name checks reject it. */
  lemma ClassifyNameFailure(cfg: Config, tables: Tables, d: string, a: string, fname: string, content: ResultFile,
                            n: int, avg: real)
    ensures var o := Classify(cfg, tables, d, a, fname, content, n, avg);
            o.Failed? && NameReason(o.reason) <==> !NameValid(cfg, fname)
  {
    CheckNameFailure(cfg, fname);
  }

  /** A file whose name passes fails on its content: it cannot be read, it is
      not JSON, it lacks a metric, or it is a JSON value other than an object
      that `in` or indexing rejects; such a value is never recorded, and is
      skipped only when it holds both names and its experiment number is 0. */
  lemma ClassifyContentFailure(cfg: Config, tables: Tables, d: string, a: string, fname: string, content: ResultFile,
                               n: int, avg: real)
    requires NameValid(cfg, fname)
    ensures var o := Classify(cfg, tables, d, a, fname, content, n, avg);
            && (content.Unreadable? ==> o == Failed(UnexpectedError))
            && (content.NotJson? ==> o == Failed(BadJson))
            && (content.Json? ==> (o.Failed? <==> "kendalls_tau" !in content.fields || "mean_absolute_error" !in content.fields))
            && (o.Failed? && content.Json? ==> o.reason == MissingMetrics)
            && (content.OtherJson? && !content.container ==> o == Failed(UnexpectedError))
            && (content.OtherJson? && content.container && !content.holdsBothKeys ==> o == Failed(MissingMetrics))
            && (content.OtherJson? && content.container && content.holdsBothKeys ==>
                  (o == Skipped <==> ENum(tables, CheckName(cfg, fname).value.e) == 0) &&
                  (o.Failed? <==> ENum(tables, CheckName(cfg, fname).value.e) != 0) &&
                  (o.Failed? ==> o.reason == UnexpectedError))
            && !(content.OtherJson? && o.Recorded?)
  {
  }

  /** A file is recorded exactly when it passes every check and its experiment
      number is not 0; the record carries the configured J, R, E, M, the pretty
      algorithm name (`saebm` shown as `EBM`) and the two metrics. */
  lemma ClassifyRecorded(cfg: Config, d: string, a: string, fname: string, content: ResultFile,
                         n: int, avg: real)
    ensures Classify(cfg, BuildTables(cfg), d, a, fname, content, n, avg).Recorded? <==>
            && NameValid(cfg, fname)
            && content.Json?
            && "kendalls_tau" in content.fields && "mean_absolute_error" in content.fields
            && ENum(BuildTables(cfg), CheckName(cfg, fname).value.e) != 0
    ensures Classify(cfg, BuildTables(cfg), d, a, fname, content, n, avg).Recorded? ==>
            var rec := Classify(cfg, BuildTables(cfg), d, a, fname, content, n, avg).record;
            && rec.dataFramework == d
            && rec.algo == (if a == "saebm" then "EBM" else a)
            && rec.j in cfg.grid.js && rec.r in RValues(cfg.grid.rs) && rec.m < cfg.grid.nVariants
            && rec.eNum != 0
            && rec.kendallsTau == content.fields["kendalls_tau"]
            && rec.mae == content.fields["mean_absolute_error"]
            && rec.nPartialRankings == n && rec.averageLength == avg
  {
    ZipMapRenameLast(cfg.testedMethods, "saebm", "EBM", a);
    if NameValid(cfg, fname) { CheckNameSuccess(cfg, fname); }
  }

  /** The titles are pairwise different, so `dict(zip(titles, exp_nums))` keeps
      every pair. */
  lemma TitlesDistinct()
    ensures forall a, b :: 0 <= a < b < |Titles| ==> Titles[a] != Titles[b]
  {
    forall a, b | 0 <= a < b < |Titles| ensures Titles[a] != Titles[b] {
      if |Titles[a]| == |Titles[b]| {
        assert Titles[a][4] != Titles[b][4] || Titles[a][5] != Titles[b][5] ||
               Titles[a][44] != Titles[b][44];
      }
    }
  }

  /** The `k`-th configured experiment gets the `k`-th title and the `k`-th
      experiment number; the ninth (`Exp 0`) gets number 0, so its files are
      skipped without a trace. */
  lemma ExperimentNumber(cfg: Config, k: nat)
    requires k < |cfg.grid.experiments| && k < |Titles|
    requires forall a, b :: 0 <= a < b < |cfg.grid.experiments| ==> cfg.grid.experiments[a] != cfg.grid.experiments[b]
    ensures Get(ConvertE(cfg), cfg.grid.experiments[k], cfg.grid.experiments[k]) == Titles[k]
    ensures ENum(BuildTables(cfg), cfg.grid.experiments[k]) == ExpNums[k]
    ensures ENum(BuildTables(cfg), cfg.grid.experiments[k]) == 0 <==> k == 8
  {
    ZipMapAt(cfg.grid.experiments, Titles, k);
    TitlesDistinct();
    ZipMapAt(Titles, ExpNums, k);
    ExpNumsZero();
  }

  /** Only the ninth experiment number is 0. */
  lemma ExpNumsZero()
    ensures forall k :: 0 <= k < |ExpNums| ==> (ExpNums[k] == 0 <==> k == 8)
  {
  }

  /** An experiment beyond the twelfth has no title, is shown under its own name
      and gets number 0, so its files are skipped as well. */
  lemma ExperimentWithoutTitle(cfg: Config, k: nat)
    requires |Titles| <= k < |cfg.grid.experiments|
    requires forall a, b :: 0 <= a < b < |cfg.grid.experiments| ==> cfg.grid.experiments[a] != cfg.grid.experiments[b]
    requires forall i :: 0 <= i < |Titles| ==> cfg.grid.experiments[k] != Titles[i]
    ensures ENum(BuildTables(cfg), cfg.grid.experiments[k]) == 0
  {
    var es := cfg.grid.experiments;
    ZipMapKeys(es, Titles, es[k]);
    assert es[k] !in es[..|Titles|];
    ZipMapKeys(Titles, ExpNums, es[k]);
    assert Titles[..Min(|Titles|, |ExpNums|)] == Titles;
  }

  /** `f.endswith('_results.json')`. */
  predicate EndsWith(s: string, suffix: string)
  {
    |suffix| <= |s| && s[|s| - |suffix|..] == suffix
  }

  /** `[f for f in os.listdir(algo_dir) if f.endswith('_results.json')]`. */
  function ResultFiles(names: seq<string>): (fs: seq<string>)
    ensures forall f :: f in fs <==> f in names && EndsWith(f, ResultsSuffix)
  {
    if names == [] then []
    else
      assert names == [names[0]] + names[1..];
      (if EndsWith(names[0], ResultsSuffix) then [names[0]] else []) + ResultFiles(names[1..])
  }

  /** The file system and the files read before the loop. */
  datatype Env = Env(
    trueOrders: map<string, map<string, UnitInfo>>,   // true_order_and_stages_{data_dir}.json
    listing: map<(string, string), seq<string>>,       // os.listdir of OUTPUT_DIR/data_dir/algo/results; no key when it does not exist
    contents: map<Triple, ResultFile>)                 // what each result file reads as; no key when it cannot be opened

  /** The result files of one (data_dir, algo) directory, none when it is missing. */
  function Files(env: Env, d: string, a: string): seq<string>
  {
    if (d, a) in env.listing then ResultFiles(env.listing[(d, a)]) else []
  }

  /** The unit name a result file is looked up under in the true orders. */
  function Stem(fname: string): string
  {
    RemoveAll(fname, ResultsSuffix)
  }

  /** The lookup `true_order_and_stages[stem]` succeeds and the average length
      does not divide by zero. */
  predicate Ready(env: Env, t: Triple)
  {
    t.0 in env.trueOrders && Stem(t.2) in env.trueOrders[t.0] &&
    |env.trueOrders[t.0][Stem(t.2)].orderingArray| > 0
  }

  /** `sum(len(x) for x in unpadded_ordering_array) / len(ordering_array)`. */
  function AverageLength(rows: seq<seq<int>>): real
    requires |rows| > 0
  {
    |Overlap.KeepNonNegative(Overlap.Flatten(rows))| as real / |rows| as real
  }

  /** What becomes of one visited file. */
  function OutcomeAt(cfg: Config, tables: Tables, env: Env, t: Triple): Outcome
    requires Ready(env, t)
  {
    var info := env.trueOrders[t.0][Stem(t.2)];
    Classify(cfg, tables, t.0, t.1, t.2, Get(env.contents, t, Unreadable), info.nPartialRankings,
             AverageLength(info.orderingArray))
  }

  /** `OutcomeAt` as a function of the visited file alone. */
  function OutcomeOf(cfg: Config, tables: Tables, env: Env): Triple --> Outcome
  {
    t requires Ready(env, t) => OutcomeAt(cfg, tables, env, t)
  }

  /** `outcome` is `OutcomeAt` on every file that can be visited. */
  ghost predicate Agrees(outcome: Triple --> Outcome, cfg: Config, tables: Tables, env: Env)
  {
    forall t {:trigger OutcomeAt(cfg, tables, env, t)} ::
      Ready(env, t) ==> outcome.requires(t) && outcome(t) == OutcomeAt(cfg, tables, env, t)
  }

  lemma OutcomeOfAgrees(cfg: Config, tables: Tables, env: Env)
    ensures Agrees(OutcomeOf(cfg, tables, env), cfg, tables, env)
  {
  }

  /** The files visited by the loop over `files` of one directory. */
  function VisitFiles(d: string, a: string, fs: seq<string>): (vs: seq<Triple>)
    ensures |vs| == |fs| && forall i :: 0 <= i < |fs| ==> vs[i] == (d, a, fs[i])
  {
    seq(|fs|, i requires 0 <= i < |fs| => (d, a, fs[i]))
  }

  /** The files visited by the loop over `ALL_ALGOS` of one data directory. */
  function VisitAlgos(env: Env, d: string, algos: seq<string>): seq<Triple>
  {
    if algos == [] then []
    else VisitAlgos(env, d, algos[..|algos| - 1]) + VisitFiles(d, algos[|algos| - 1], Files(env, d, algos[|algos| - 1]))
  }

  /** The files visited by the loop over `ALL_DATA_DIR`, in the order of the visit. */
  function VisitDirs(env: Env, dirs: seq<string>, algos: seq<string>): seq<Triple>
  {
    if dirs == [] then []
    else VisitDirs(env, dirs[..|dirs| - 1], algos) + VisitAlgos(env, dirs[|dirs| - 1], algos)
  }

  function Visits(cfg: Config, env: Env): seq<Triple>
  {
    VisitDirs(env, cfg.dataDirs, AllAlgos(cfg))
  }

  /** `found_files`, `failed_files` (each path given as the triple it is built
      from) and `records`. */
  datatype Tally = Tally(found: set<Triple>, failed: seq<(Triple, Reason)>, records: seq<Record>)

  const Start := Tally({}, [], [])

  /** The bookkeeping of one visited file: it is found, and its outcome goes to
      the failures or to the records. */
  function Apply(s: Tally, t: Triple, o: Outcome): Tally
  {
    Tally(s.found + {t},
          if o.Failed? then s.failed + [(t, o.reason)] else s.failed,
          if o.Recorded? then s.records + [o.record] else s.records)
  }

  /** The tally after visiting `vs` from `s`, given the outcome of each file. */
  function RunFrom(s: Tally, vs: seq<Triple>, outcome: Triple --> Outcome): Tally
    requires forall t :: t in vs ==> outcome.requires(t)
  {
    if vs == [] then s
    else Apply(RunFrom(s, vs[..|vs| - 1], outcome), vs[|vs| - 1], outcome(vs[|vs| - 1]))
  }

  /** What save_csv.py needs to run through: every data directory has its true
      orders (a missing `true_order_and_stages_{data_dir}.json` raises
      `FileNotFoundError` at line 116), and every result file visited has an
      entry there with a non-empty ordering array (a missing entry raises
      `KeyError`, an empty array divides by zero). That an entry holds its keys
      is part of `UnitInfo`. */
  predicate Loadable(cfg: Config, env: Env)
  {
    && (forall d :: d in cfg.dataDirs ==> d in env.trueOrders)
    && (forall t :: t in Visits(cfg, env) ==> Ready(env, t))
  }

  lemma VisitFilesMembers(d: string, a: string, fs: seq<string>)
    ensures forall t: Triple :: t in VisitFiles(d, a, fs) <==> t.0 == d && t.1 == a && t.2 in fs
  {
    forall t: Triple | t.0 == d && t.1 == a && t.2 in fs ensures t in VisitFiles(d, a, fs) {
      var i :| 0 <= i < |fs| && fs[i] == t.2;
      assert VisitFiles(d, a, fs)[i] == t;
    }
  }

  lemma {:induction false} VisitAlgosMembers(env: Env, d: string, algos: seq<string>)
    ensures forall t: Triple :: t in VisitAlgos(env, d, algos) <==> t.0 == d && t.1 in algos && t.2 in Files(env, d, t.1)
  {
    if algos != [] {
      var init, last := algos[..|algos| - 1], algos[|algos| - 1];
      VisitAlgosMembers(env, d, init);
      VisitFilesMembers(d, last, Files(env, d, last));
      assert algos == init + [last];
    }
  }

  /** The loop visits exactly the result files listed in the directories of the
      configured data directories and algorithms. */
  lemma {:induction false} VisitDirsMembers(env: Env, dirs: seq<string>, algos: seq<string>)
    ensures forall t: Triple :: t in VisitDirs(env, dirs, algos) <==> t.0 in dirs && t.1 in algos && t.2 in Files(env, t.0, t.1)
  {
    if dirs != [] {
      var init, last := dirs[..|dirs| - 1], dirs[|dirs| - 1];
      VisitDirsMembers(env, init, algos);
      VisitAlgosMembers(env, last, algos);
      assert dirs == init + [last];
    }
  }

  /** Visiting `a + b` is visiting `a`, then `b`. */
  lemma {:induction false} RunFromAppend(s: Tally, a: seq<Triple>, b: seq<Triple>, outcome: Triple --> Outcome)
    requires forall t :: t in a + b ==> outcome.requires(t)
    ensures RunFrom(s, a + b, outcome) == RunFrom(RunFrom(s, a, outcome), b, outcome)
  {
    if b == [] {
      assert a + b == a;
    } else {
      assert (a + b)[..|a + b| - 1] == a + b[..|b| - 1];
      RunFromAppend(s, a, b[..|b| - 1], outcome);
    }
  }

  /** Every visited file is found, and nothing else is. */
  lemma {:induction false} RunFromFound(s: Tally, vs: seq<Triple>, outcome: Triple --> Outcome)
    requires forall t :: t in vs ==> outcome.requires(t)
    ensures forall t :: t in RunFrom(s, vs, outcome).found <==> t in s.found || t in vs
  {
    if vs != [] {
      RunFromFound(s, vs[..|vs| - 1], outcome);
      assert vs == vs[..|vs| - 1] + [vs[|vs| - 1]];
    }
  }

  /** A failure is logged for a visited file exactly when its outcome is a
      failure, and with that outcome's reason. */
  lemma {:induction false} RunFromFailed(s: Tally, vs: seq<Triple>, outcome: Triple --> Outcome)
    requires forall t :: t in vs ==> outcome.requires(t)
    ensures forall t, r :: (t, r) in RunFrom(s, vs, outcome).failed <==>
              (t, r) in s.failed || (t in vs && outcome(t) == Failed(r))
  {
    if vs != [] {
      RunFromFailed(s, vs[..|vs| - 1], outcome);
      assert vs == vs[..|vs| - 1] + [vs[|vs| - 1]];
    }
  }

  /** A record is kept exactly for the visited files whose outcome it is. */
  lemma {:induction false} RunFromRecords(s: Tally, vs: seq<Triple>, outcome: Triple --> Outcome)
    requires forall t :: t in vs ==> outcome.requires(t)
    ensures forall rec :: rec in RunFrom(s, vs, outcome).records <==>
              rec in s.records || exists t :: t in vs && outcome(t) == Recorded(rec)
  {
    if vs != [] {
      var init, last := vs[..|vs| - 1], vs[|vs| - 1];
      RunFromRecords(s, init, outcome);
      assert vs == init + [last];
      forall rec | exists t :: t in vs && outcome(t) == Recorded(rec)
        ensures rec in RunFrom(s, vs, outcome).records
      {
        var t :| t in vs && outcome(t) == Recorded(rec);
        if t != last { assert t in init; }
      }
    }
  }

  /** The number of visited files that are skipped without a trace. */
  function Skips(vs: seq<Triple>, outcome: Triple --> Outcome): nat
    requires forall t :: t in vs ==> outcome.requires(t)
  {
    if vs == [] then 0
    else Skips(vs[..|vs| - 1], outcome) + (if outcome(vs[|vs| - 1]).Skipped? then 1 else 0)
  }

  /** Each visited file adds exactly one failure, one record or one skip. */
  lemma {:induction false} RunFromCount(s: Tally, vs: seq<Triple>, outcome: Triple --> Outcome)
    requires forall t :: t in vs ==> outcome.requires(t)
    ensures |RunFrom(s, vs, outcome).failed| + |RunFrom(s, vs, outcome).records| + Skips(vs, outcome)
            == |s.failed| + |s.records| + |vs|
  {
    if vs != [] {
      RunFromCount(s, vs[..|vs| - 1], outcome);
    }
  }

  /** The files found are exactly the result files listed in the directories of
      the configured data directories and algorithms. */
  lemma FoundAreListed(cfg: Config, tables: Tables, env: Env)
    requires Loadable(cfg, env)
    ensures forall t :: t in RunFrom(Start, Visits(cfg, env), OutcomeOf(cfg, tables, env)).found <==>
              t.0 in cfg.dataDirs && t.1 in AllAlgos(cfg) && t.2 in Files(env, t.0, t.1)
  {
    RunFromFound(Start, Visits(cfg, env), OutcomeOf(cfg, tables, env));
    VisitDirsMembers(env, cfg.dataDirs, AllAlgos(cfg));
  }

  /** The configured values that expected file names are built from are well
      formed: each R is a decimal literal, and no experiment name holds a line
      feed or `_results.json`. */
  predicate GridWellFormed(g: Grid)
  {
    && (forall r :: r in g.rs ==> IsDecimal(r))
    && (forall e :: e in g.experiments ==> '\n' !in e && !Contains(e, ResultsSuffix))
  }

  /** An expected file name passes every name check and stands for the very
      unit it was built from. */
  lemma ExpectedNameValid(cfg: Config, j: nat, r: string, e: string, m: nat)
    requires GridWellFormed(cfg.grid)
    requires j in cfg.grid.js && r in cfg.grid.rs && e in cfg.grid.experiments && m < cfg.grid.nVariants
    ensures CheckName(cfg, ResultFileName(j, r, e, m)) == Success(Unit(j, DecimalValue(r), e, m))
  {
    ResultFileNameRoundTrip(j, r, e, m);
    NatToStringValue(j);
    DigitsValueAgrees(NatToString(j));
    NatToStringValue(m);
    DigitsValueAgrees(NatToString(m));
    var k :| 0 <= k < |cfg.grid.rs| && cfg.grid.rs[k] == r;
    assert RValues(cfg.grid.rs)[k] == DecimalValue(r);
  }

  /** `main` up to the summary: the three dictionaries are built, then the
      three nested loops over data directories, algorithms and result files fill
      `found_files`, `failed_files` and `records`. */
  method ReconcileResults(cfg: Config, env: Env) returns (found: set<Triple>, failed: seq<(Triple, Reason)>, records: seq<Record>)
    requires Loadable(cfg, env)
    ensures Tally(found, failed, records) == RunFrom(Start, Visits(cfg, env), OutcomeOf(cfg, BuildTables(cfg), env))
  {
    var tables := BuildTables(cfg);
    OutcomeOfAgrees(cfg, tables, env);
    found, failed, records := ProcessDataDirs(cfg, tables, env, OutcomeOf(cfg, tables, env));
  }

  /** The loop over `ALL_DATA_DIR`. */
  method ProcessDataDirs(cfg: Config, tables: Tables, env: Env, ghost outcome: Triple --> Outcome)
    returns (found: set<Triple>, failed: seq<(Triple, Reason)>, records: seq<Record>)
    requires Agrees(outcome, cfg, tables, env)
    requires forall t :: t in Visits(cfg, env) ==> Ready(env, t) && outcome.requires(t)
    ensures Tally(found, failed, records) == RunFrom(Start, Visits(cfg, env), outcome)
  {
    var algos := AllAlgos(cfg);
    found, failed, records := {}, [], [];
    VisitDirsMembers(env, cfg.dataDirs, algos);
    for i := 0 to |cfg.dataDirs|
      invariant forall t :: t in VisitDirs(env, cfg.dataDirs[..i], algos) ==> outcome.requires(t)
      invariant Tally(found, failed, records) == RunFrom(Start, VisitDirs(env, cfg.dataDirs[..i], algos), outcome)
    {
      var d := cfg.dataDirs[i];
      ghost var before := VisitDirs(env, cfg.dataDirs[..i], algos);
      assert cfg.dataDirs[..i + 1][..i] == cfg.dataDirs[..i];
      VisitDirsMembers(env, cfg.dataDirs[..i + 1], algos);
      VisitAlgosMembers(env, d, algos);
      found, failed, records := ProcessDataDir(cfg, tables, env, d, outcome, found, failed, records);
      RunFromAppend(Start, before, VisitAlgos(env, d, algos), outcome);
    }
    assert cfg.dataDirs[..|cfg.dataDirs|] == cfg.dataDirs;
  }

  /** The loop over `ALL_ALGOS` for one data directory; a missing directory is
      passed over. */
  method ProcessDataDir(cfg: Config, tables: Tables, env: Env, d: string, ghost outcome: Triple --> Outcome,
                        found0: set<Triple>, failed0: seq<(Triple, Reason)>, records0: seq<Record>)
    returns (found: set<Triple>, failed: seq<(Triple, Reason)>, records: seq<Record>)
    requires Agrees(outcome, cfg, tables, env)
    requires forall t :: t in VisitAlgos(env, d, AllAlgos(cfg)) ==> Ready(env, t) && outcome.requires(t)
    ensures Tally(found, failed, records) ==
            RunFrom(Tally(found0, failed0, records0), VisitAlgos(env, d, AllAlgos(cfg)), outcome)
  {
    var algos := AllAlgos(cfg);
    found, failed, records := found0, failed0, records0;
    VisitAlgosMembers(env, d, algos);
    for k := 0 to |algos|
      invariant forall t :: t in VisitAlgos(env, d, algos[..k]) ==> outcome.requires(t)
      invariant Tally(found, failed, records) ==
                RunFrom(Tally(found0, failed0, records0), VisitAlgos(env, d, algos[..k]), outcome)
    {
      var a := algos[k];
      assert algos[..k + 1][..k] == algos[..k];
      VisitAlgosMembers(env, d, algos[..k + 1]);
      VisitFilesMembers(d, a, Files(env, d, a));
      if (d, a) in env.listing {
        var files := ResultFiles(env.listing[(d, a)]);
        found, failed, records := ProcessFiles(cfg, tables, env, d, a, files, outcome, found, failed, records);
      }
      RunFromAppend(Tally(found0, failed0, records0), VisitAlgos(env, d, algos[..k]),
                    VisitFiles(d, a, Files(env, d, a)), outcome);
    }
    assert algos[..|algos|] == algos;
  }

  /** The loop over the result files of one directory. */
  method ProcessFiles(cfg: Config, tables: Tables, env: Env, d: string, a: string, files: seq<string>,
                      ghost outcome: Triple --> Outcome,
                      found0: set<Triple>, failed0: seq<(Triple, Reason)>, records0: seq<Record>)
    returns (found: set<Triple>, failed: seq<(Triple, Reason)>, records: seq<Record>)
    requires Agrees(outcome, cfg, tables, env)
    requires forall f :: f in files ==> Ready(env, (d, a, f)) && outcome.requires((d, a, f))
    ensures Tally(found, failed, records) ==
            RunFrom(Tally(found0, failed0, records0), VisitFiles(d, a, files), outcome)
  {
    found, failed, records := found0, failed0, records0;
    for i := 0 to |files|
      invariant Tally(found, failed, records) ==
                RunFrom(Tally(found0, failed0, records0), VisitFiles(d, a, files[..i]), outcome)
    {
      ghost var t := (d, a, files[i]);
      assert VisitFiles(d, a, files[..i + 1]) == VisitFiles(d, a, files[..i]) + [t];
      found, failed, records := ProcessFile(cfg, tables, env, d, a, files[i], found, failed, records);
    }
    assert files[..|files|] == files;
  }

  /** The body of the loop over files: look up the unit's ordering array, average
      its partial-ranking lengths, record the file as found, then classify it. */
  method ProcessFile(cfg: Config, tables: Tables, env: Env, d: string, a: string, fname: string,
                     found0: set<Triple>, failed0: seq<(Triple, Reason)>, records0: seq<Record>)
    returns (found: set<Triple>, failed: seq<(Triple, Reason)>, records: seq<Record>)
    requires Ready(env, (d, a, fname))
    ensures Tally(found, failed, records) ==
            Apply(Tally(found0, failed0, records0), (d, a, fname), OutcomeAt(cfg, tables, env, (d, a, fname)))
  {
    var info := env.trueOrders[d][Stem(fname)];
    var avg := Overlap.AveragePartialRankingLength(info.orderingArray);
    found, failed, records := found0 + {(d, a, fname)}, failed0, records0;
    var outcome := Classify(cfg, tables, d, a, fname, Get(env.contents, (d, a, fname), Unreadable),
                            info.nPartialRankings, avg);
    match outcome {
      case Failed(reason) => failed := failed + [((d, a, fname), reason)];
      case Skipped =>
      case Recorded(rec) => records := records + [rec];
    }
  }
}
