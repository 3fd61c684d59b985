/** The per-unit diagnostics table of run_meta.py: for one unit, every data
    framework except `Random` contributes four rows, one per inference method,
    sharing that framework's conflict, overlap rate, separation and sharpness;
    the unit's J, R, E and M are then added to every row. The samplers and the
    statistics computed from them are outside the model and enter as the
    functions `measure` and `rho`. */
module MetaTable {
  import opened Wrappers
  import opened Strings
  import opened Dicts
  import opened UnitName
  import opened Overlap
  import Generate

  /** The pretty experiment titles of run_meta.py, in configuration order. */
  const MetaTitles: seq<string> := [
    "Exp 1: S + Ordinal kj (DM) + X (Normal)",
    "Exp 2: S + Ordinal kj (DM) + X (Non-Normal)",
    "Exp 3: S + Ordinal kj (Uniform) + X (Normal)",
    "Exp 4: S + Ordinal kj (Uniform) + X (Non-Normal)",
    "Exp 8: S + Continuous kj (Uniform) + X (Sigmoid)",
    "Exp 9: S + Continuous kj (Skewed) + X (Sigmoid)",
    "Exp 5: S + Continuous kj (Uniform) + X (Normal)",
    "Exp 6: S + Continuous kj (Uniform) + X (Non-Normal)",
    "Exp 10: S + Continuous kj (Skewed) + X (Normal)",
    "Exp 7: S + Continuous kj (Skewed) + X (Non-Normal)",
    "Exp 11: xi (Normal) + Continuous kj (Skewed) + X (Sigmoid)",
    "Exp 12: xi (Normal) + Continuous kj (Skewed) + X (Normal)"
  ]

  /** `exp_nums`: the number of each title. */
  const MetaExpNums: seq<int> := [1, 2, 3, 4, 8, 9, 5, 6, 10, 7, 11, 12]

  /** The inference methods, in the order of the inner loop. */
  const InferenceMethods: seq<string> := ["BT", "PL", "Pairwise", "Mallows_Tau"]

  /** `CONVERT_E_DICT` and `GET_E_NUM`. */
  datatype Labels = Labels(convertE: map<string, string>, getENum: map<string, int>)

  function MetaLabels(experiments: seq<string>): Labels
  {
    Labels(ZipMap(experiments, MetaTitles), ZipMap(MetaTitles, MetaExpNums))
  }

  /** `E_pretty`: the title of a configured experiment, otherwise `E` itself. */
  function EPretty(labels: Labels, e: string): string
  {
    Get(labels.convertE, e, e)
  }

  /** `E_Num`: the number of the title, 0 for an unknown one. */
  function MetaENum(labels: Labels, e: string): int
  {
    Get(labels.getENum, EPretty(labels, e), 0)
  }

  /** `mp_method`: every Mallows-Tau framework is sampled with the method `Mallows_Tau`. */
  function MpMethod(framework: string): (m: string)
    ensures m == framework || m == "Mallows_Tau"
    ensures m == "Mallows_Tau" <==> Contains(framework, "Mallows_Tau")
  {
    assert framework == "Mallows_Tau" ==> OccursAt(framework, "Mallows_Tau", 0);
    if Contains(framework, "Mallows_Tau") then "Mallows_Tau" else framework
  }

  /** `mallows_temperature`: 1 only for the framework named exactly `Mallows_Tau_T1`. */
  function MallowsTemperature(framework: string): (t: int)
    ensures t == 1 || t == 10
    ensures t == 1 <==> framework == "Mallows_Tau_T1"
  {
    if framework == "Mallows_Tau_T1" then 1 else 10
  }

  /** `[x for x in MP_DATA_DIR if x != 'Random']`: the frameworks other than
      `Random`, in their configured order. */
  function NonRandom(frameworks: seq<string>): (fws: seq<string>)
    ensures forall x :: x in fws <==> x in frameworks && x != "Random"
    ensures |fws| <= |frameworks|
  {
    if frameworks == [] then []
    else
      var rest := NonRandom(frameworks[..|frameworks| - 1]);
      var last := frameworks[|frameworks| - 1];
      assert frameworks == frameworks[..|frameworks| - 1] + [last];
      if last == "Random" then rest else rest + [last]
  }

  /** `NonRandom` keeps the order of the frameworks it keeps. */
  lemma {:induction false} NonRandomAppend(a: seq<string>, b: seq<string>)
    ensures NonRandom(a + b) == NonRandom(a) + NonRandom(b)
  {
    if b != [] {
      var init := b[..|b| - 1];
      NonRandomAppend(a, init);
      assert (a + b)[..|a + b| - 1] == a + init;
    } else {
      assert a + b == a;
    }
  }

  /** What the samplers and `compute_conflict2` report for one framework. */
  datatype Measures = Measures(conflict: real, separation: real, sharpness: real)

  /** `curr_dic`: the measures of one framework. */
  datatype CurrDict = CurrDict(
    dataFramework: string, eNum: int, conflict: real, overlapRate: real,
    separation: real, sharpness: real)

  /** `result_dic`: a copy of `curr_dic` with `algo` and `spearman_rho` added. */
  datatype MetaDict = MetaDict(curr: CurrDict, algo: string, spearmanRho: real)

  /** The constant columns `{'J': int(J), 'R': float(R), 'E': E_pretty, 'M': int(M)}`. */
  datatype Params = Params(j: nat, r: real, e: string, m: nat)

  /** One row of the written table. */
  datatype Row = Row(d: MetaDict, params: Params)

  /** Why the script stops: the unit name does not decode (the unpacking of
      `None` raises), a framework's JSON file does not exist (`sys.exit(1)`),
      the JSON file has no entry for the unit (`KeyError`), or `float(R)` fails.
      An entry is taken to hold `ordering_array`, so the `KeyError` of a
      missing `ordering_array` is not among them. */
  datatype MetaError = BadName | MissingJson(framework: string) | MissingUnit(framework: string) | BadR

  /** `curr_dic` of framework `fw` for the ordering array `rows`. */
  function FrameworkDict(fw: string, eNum: int, rows: seq<seq<int>>, ms: Measures): (d: CurrDict)
    ensures d.dataFramework == fw && d.eNum == eNum
    ensures 0.0 <= d.overlapRate <= 1.0
  {
    CurrDict(fw, eNum, ms.conflict, OverlapRate(rows), ms.separation, ms.sharpness)
  }

  /** The copy of `curr_dic` for one inference method. */
  function WithMethod(curr: CurrDict, inf: string, rho: (string, string) -> real): MetaDict
  {
    MetaDict(curr, inf, rho(curr.dataFramework, inf))
  }

  /** The four dictionaries of one framework, in the order of the inner loop. */
  function MethodDicts(curr: CurrDict, rho: (string, string) -> real): (ds: seq<MetaDict>)
    ensures |ds| == |InferenceMethods|
    ensures forall k :: 0 <= k < |ds| ==>
              ds[k] == MetaDict(curr, InferenceMethods[k], rho(curr.dataFramework, InferenceMethods[k]))
  {
    [WithMethod(curr, "BT", rho), WithMethod(curr, "PL", rho),
     WithMethod(curr, "Pairwise", rho), WithMethod(curr, "Mallows_Tau", rho)]
  }

  /** `ALL_DICTS` after the loop over the frameworks `fws`, or the first framework
      whose JSON file or unit entry is missing. `jsons` maps each framework whose
      JSON file exists to its units' ordering arrays. */
  function AllDicts(fws: seq<string>, jsons: map<string, map<string, seq<seq<int>>>>, filename: string,
                    eNum: int, measure: string -> Measures, rho: (string, string) -> real)
    : Result<seq<MetaDict>, MetaError>
  {
    if fws == [] then Success([])
    else
      match AllDicts(fws[..|fws| - 1], jsons, filename, eNum, measure, rho)
      case Failure(err) => Failure(err)
      case Success(ds) =>
        var fw := fws[|fws| - 1];
        if fw !in jsons then Failure(MissingJson(fw))
        else if filename !in jsons[fw] then Failure(MissingUnit(fw))
        else Success(ds + MethodDicts(FrameworkDict(fw, eNum, jsons[fw][filename], measure(fw)), rho))
  }

  /** Adds the constant columns to every dictionary. */
  function WithParams(ds: seq<MetaDict>, p: Params): (rows: seq<Row>)
    ensures |rows| == |ds| && forall i :: 0 <= i < |ds| ==> rows[i].d == ds[i] && rows[i].params == p
  {
    seq(|ds|, i requires 0 <= i < |ds| => Row(ds[i], p))
  }

  /** What the script writes for unit `filename`, or why it stops. */
  function MetaOutcome(filename: string, labels: Labels, frameworks: seq<string>,
                       jsons: map<string, map<string, seq<seq<int>>>>, measure: string -> Measures,
                       rho: (string, string) -> real): Result<seq<Row>, MetaError>
  {
    match ExtractComponents(filename)
    case None => Failure(BadName)
    case Some(c) => UnitOutcome(filename, c, labels, NonRandom(frameworks), jsons, measure, rho)
  }

  /** The outcome once the unit name has been decoded into `c`: the frameworks
      are read in order, and `float(R)` is evaluated after the loop. */
  function UnitOutcome(filename: string, c: Components, labels: Labels, fws: seq<string>,
                       jsons: map<string, map<string, seq<seq<int>>>>, measure: string -> Measures,
                       rho: (string, string) -> real): Result<seq<Row>, MetaError>
  {
    match AllDicts(fws, jsons, filename, MetaENum(labels, c.e), measure, rho)
    case Failure(err) => Failure(err)
    case Success(ds) =>
      if !IsDecimal(c.r) then Failure(BadR)
      else Success(WithParams(ds, UnitParams(labels, c)))
  }

  /** The constant columns of unit `c`; R must be a decimal literal. */
  function UnitParams(labels: Labels, c: Components): Params
    requires IsDecimal(c.r)
  {
    Params(DigitsOrEmptyValue(c.j), DecimalValue(c.r), EPretty(labels, c.e), DigitsOrEmptyValue(c.m))
  }

  /** `__main__` of run_meta.py for the unit `filename`. */
  method BuildMetaTable(filename: string, experiments: seq<string>, frameworks: seq<string>,
                        jsons: map<string, map<string, seq<seq<int>>>>, measure: string -> Measures,
                        rho: (string, string) -> real)
    returns (result: Result<seq<Row>, MetaError>)
    ensures result == MetaOutcome(filename, MetaLabels(experiments), frameworks, jsons, measure, rho)
  {
    var labels := MetaLabels(experiments);
    result := TableFor(filename, labels, frameworks, jsons, measure, rho);
  }

  /** The body of `__main__` with the labels already built. */
  method TableFor(filename: string, labels: Labels, frameworks: seq<string>,
                  jsons: map<string, map<string, seq<seq<int>>>>, measure: string -> Measures,
                  rho: (string, string) -> real)
    returns (result: Result<seq<Row>, MetaError>)
    ensures result == MetaOutcome(filename, labels, frameworks, jsons, measure, rho)
  {
    var parts := ExtractComponents(filename);
    if parts.None? {
      return Failure(BadName);
    }
    result := UnitTable(filename, parts.value, labels, NonRandom(frameworks), jsons, measure, rho);
  }

  /** The loop over the frameworks `fws` for the decoded unit `c`. */
  method UnitTable(filename: string, c: Components, labels: Labels, fws: seq<string>,
                   jsons: map<string, map<string, seq<seq<int>>>>, measure: string -> Measures,
                   rho: (string, string) -> real)
    returns (result: Result<seq<Row>, MetaError>)
    ensures result == UnitOutcome(filename, c, labels, fws, jsons, measure, rho)
  {
    var eNum := MetaENum(labels, c.e);
    var dicts: seq<MetaDict> := [];
    for i := 0 to |fws|
      invariant AllDicts(fws[..i], jsons, filename, eNum, measure, rho) == Success(dicts)
    {
      var fw := fws[i];
      if fw !in jsons || filename !in jsons[fw] {
        MissingStops(fws, i, jsons, filename, eNum, measure, rho);
        return if fw !in jsons then Failure(MissingJson(fw)) else Failure(MissingUnit(fw));
      }
      var curr := FrameworkDict(fw, eNum, jsons[fw][filename], measure(fw));
      dicts := AppendMethods(dicts, curr, rho);
      assert fws[..i + 1][..i] == fws[..i];
    }
    assert fws[..|fws|] == fws;
    if !IsDecimal(c.r) {
      return Failure(BadR);
    }
    result := Success(WithParams(dicts, UnitParams(labels, c)));
  }

  /** `for inf_method in ['BT', 'PL', 'Pairwise', 'Mallows_Tau']`: a fresh copy of
      `curr_dic` per method. */
  method AppendMethods(dicts0: seq<MetaDict>, curr: CurrDict, rho: (string, string) -> real)
    returns (dicts: seq<MetaDict>)
    ensures dicts == dicts0 + MethodDicts(curr, rho)
  {
    dicts := dicts0;
    for k := 0 to |InferenceMethods|
      invariant dicts == dicts0 + MethodDicts(curr, rho)[..k]
    {
      var inf := InferenceMethods[k];
      dicts := dicts + [WithMethod(curr, inf, rho)];
      assert MethodDicts(curr, rho)[..k + 1] == MethodDicts(curr, rho)[..k] + [WithMethod(curr, inf, rho)];
    }
    assert MethodDicts(curr, rho)[..|InferenceMethods|] == MethodDicts(curr, rho);
  }

  /** When the `i`-th framework is the first that is missing, the loop stops
      there with its error. */
  lemma MissingStops(fws: seq<string>, i: nat, jsons: map<string, map<string, seq<seq<int>>>>, filename: string,
                     eNum: int, measure: string -> Measures, rho: (string, string) -> real)
    requires i < |fws| && AllDicts(fws[..i], jsons, filename, eNum, measure, rho).Success?
    requires fws[i] !in jsons || filename !in jsons[fws[i]]
    ensures AllDicts(fws, jsons, filename, eNum, measure, rho) ==
              Failure(if fws[i] !in jsons then MissingJson(fws[i]) else MissingUnit(fws[i]))
  {
    assert fws[..i + 1][..i] == fws[..i];
    AllDictsFailureSticks(fws[..i + 1], fws[i + 1..], jsons, filename, eNum, measure, rho);
    assert fws[..i + 1] + fws[i + 1..] == fws;
  }

  /** Once a framework is missing, the later frameworks are never reached. */
  lemma {:induction false} AllDictsFailureSticks(a: seq<string>, b: seq<string>,
                                                jsons: map<string, map<string, seq<seq<int>>>>, filename: string,
                                                eNum: int, measure: string -> Measures, rho: (string, string) -> real)
    requires AllDicts(a, jsons, filename, eNum, measure, rho).Failure?
    ensures AllDicts(a + b, jsons, filename, eNum, measure, rho) == AllDicts(a, jsons, filename, eNum, measure, rho)
  {
    if b == [] {
      assert a + b == a;
    } else {
      AllDictsFailureSticks(a, b[..|b| - 1], jsons, filename, eNum, measure, rho);
      assert (a + b)[..|a + b| - 1] == a + b[..|b| - 1];
    }
  }

  /** The framework's JSON file exists and has an entry for the unit. */
  predicate Present(fw: string, jsons: map<string, map<string, seq<seq<int>>>>, filename: string)
  {
    fw in jsons && filename in jsons[fw]
  }

  /** The error for a framework that is not present. */
  function MissingError(fw: string, jsons: map<string, map<string, seq<seq<int>>>>): MetaError
  {
    if fw !in jsons then MissingJson(fw) else MissingUnit(fw)
  }

  /** The loop succeeds exactly when every framework is present. */
  lemma {:induction false} AllDictsSuccess(fws: seq<string>, jsons: map<string, map<string, seq<seq<int>>>>,
                                           filename: string, eNum: int, measure: string -> Measures,
                                           rho: (string, string) -> real)
    ensures AllDicts(fws, jsons, filename, eNum, measure, rho).Success? <==>
            forall fw :: fw in fws ==> Present(fw, jsons, filename)
  {
    if fws != [] {
      var init := fws[..|fws| - 1];
      var fw := fws[|fws| - 1];
      AllDictsSuccess(init, jsons, filename, eNum, measure, rho);
      assert forall x :: x in fws <==> x in init || x == fw;
      if AllDicts(init, jsons, filename, eNum, measure, rho).Success? {
        assert AllDicts(fws, jsons, filename, eNum, measure, rho).Success? <==> Present(fw, jsons, filename);
      } else {
        assert AllDicts(fws, jsons, filename, eNum, measure, rho).Failure?;
      }
    }
  }

  /** A failing loop reports the first framework, in order, that is not present. */
  lemma {:induction false} AllDictsFirstMissing(fws: seq<string>, jsons: map<string, map<string, seq<seq<int>>>>,
                                                filename: string, eNum: int, measure: string -> Measures,
                                                rho: (string, string) -> real)
    requires AllDicts(fws, jsons, filename, eNum, measure, rho).Failure?
    ensures exists i :: 0 <= i < |fws| && !Present(fws[i], jsons, filename) &&
              (forall k :: 0 <= k < i ==> Present(fws[k], jsons, filename)) &&
              AllDicts(fws, jsons, filename, eNum, measure, rho).error == MissingError(fws[i], jsons)
  {
    var init := fws[..|fws| - 1];
    var r0 := AllDicts(init, jsons, filename, eNum, measure, rho);
    if r0.Failure? {
      AllDictsFirstMissing(init, jsons, filename, eNum, measure, rho);
      var i :| 0 <= i < |init| && !Present(init[i], jsons, filename) &&
        (forall k :: 0 <= k < i ==> Present(init[k], jsons, filename)) && r0.error == MissingError(init[i], jsons);
      assert forall k :: 0 <= k <= i ==> fws[k] == init[k];
    } else {
      AllDictsSuccess(init, jsons, filename, eNum, measure, rho);
      var i := |fws| - 1;
      forall k | 0 <= k < i ensures Present(fws[k], jsons, filename) {
        assert fws[k] == init[k] && init[k] in init;
      }
    }
  }

  /** Row `4 * i + k` of the loop's dictionaries is the `k`-th inference method
      of the `i`-th framework, with that framework's own measures and overlap
      rate. */
  lemma {:induction false} AllDictsShape(fws: seq<string>, jsons: map<string, map<string, seq<seq<int>>>>,
                                         filename: string, eNum: int, measure: string -> Measures,
                                         rho: (string, string) -> real, i: nat, k: nat)
    requires forall q :: 0 <= q < |fws| ==> fws[q] in jsons && filename in jsons[fws[q]]
    requires i < |fws| && k < |InferenceMethods|
    ensures AllDicts(fws, jsons, filename, eNum, measure, rho).Success?
    ensures var ds := AllDicts(fws, jsons, filename, eNum, measure, rho).value;
            && |ds| == 4 * |fws|
            && ds[4 * i + k] == MetaDict(FrameworkDict(fws[i], eNum, jsons[fws[i]][filename], measure(fws[i])),
                                         InferenceMethods[k], rho(fws[i], InferenceMethods[k]))
  {
    var init := fws[..|fws| - 1];
    var fw := fws[|fws| - 1];
    assert forall q :: 0 <= q < |init| ==> init[q] == fws[q];
    forall x | x in fws ensures Present(x, jsons, filename) {
      var q :| 0 <= q < |fws| && fws[q] == x;
    }
    AllDictsSuccess(fws, jsons, filename, eNum, measure, rho);
    AllDictsSuccess(init, jsons, filename, eNum, measure, rho);
    AllDictsLength(init, jsons, filename, eNum, measure, rho);
    var ds0 := AllDicts(init, jsons, filename, eNum, measure, rho).value;
    var last := MethodDicts(FrameworkDict(fw, eNum, jsons[fw][filename], measure(fw)), rho);
    assert AllDicts(fws, jsons, filename, eNum, measure, rho).value == ds0 + last;
    BlockAt(ds0, last, |init|, i, k);
    if i < |init| {
      AllDictsShape(init, jsons, filename, eNum, measure, rho, i, k);
    }
  }

  /** Indexing into a sequence of blocks of four, one block appended. */
  lemma BlockAt<T>(ds0: seq<T>, last: seq<T>, n: nat, i: nat, k: nat)
    requires |ds0| == 4 * n && |last| == 4 && i <= n && k < 4
    ensures 4 * i + k < |ds0 + last|
    ensures i < n ==> 4 * i + k < |ds0| && (ds0 + last)[4 * i + k] == ds0[4 * i + k]
    ensures i == n ==> (ds0 + last)[4 * i + k] == last[k]
  {
  }

  /** Four dictionaries per framework. */
  lemma {:induction false} AllDictsLength(fws: seq<string>, jsons: map<string, map<string, seq<seq<int>>>>,
                                          filename: string, eNum: int, measure: string -> Measures,
                                          rho: (string, string) -> real)
    requires AllDicts(fws, jsons, filename, eNum, measure, rho).Success?
    ensures |AllDicts(fws, jsons, filename, eNum, measure, rho).value| == 4 * |fws|
  {
    if fws != [] {
      AllDictsLength(fws[..|fws| - 1], jsons, filename, eNum, measure, rho);
    }
  }

  /** The script succeeds exactly when the unit name decodes, every framework
      other than `Random` has its JSON file with an entry for the unit, and R
      is a decimal literal. The name is checked first, then the frameworks in
      order, and R last. */
  lemma MetaOutcomeErrors(filename: string, labels: Labels, frameworks: seq<string>,
                          jsons: map<string, map<string, seq<seq<int>>>>, measure: string -> Measures,
                          rho: (string, string) -> real)
    ensures var o := MetaOutcome(filename, labels, frameworks, jsons, measure, rho);
            && (o == Failure(BadName) <==> ExtractComponents(filename).None?)
            && (o.Success? <==>
                  && ExtractComponents(filename).Some?
                  && (forall fw :: fw in frameworks && fw != "Random" ==> Present(fw, jsons, filename))
                  && IsDecimal(ExtractComponents(filename).value.r))
            && (o == Failure(BadR) <==>
                  && ExtractComponents(filename).Some?
                  && (forall fw :: fw in frameworks && fw != "Random" ==> Present(fw, jsons, filename))
                  && !IsDecimal(ExtractComponents(filename).value.r))
  {
    if ExtractComponents(filename).Some? {
      var c := ExtractComponents(filename).value;
      var fws := NonRandom(frameworks);
      AllDictsSuccess(fws, jsons, filename, MetaENum(labels, c.e), measure, rho);
      if AllDicts(fws, jsons, filename, MetaENum(labels, c.e), measure, rho).Failure? {
        AllDictsFirstMissing(fws, jsons, filename, MetaENum(labels, c.e), measure, rho);
      }
    }
  }

  /** A unit whose frameworks are all present and whose R is a decimal literal
      gets four rows per framework other than `Random`: row `4 * i + k` is the
      `k`-th inference method of the `i`-th framework with that framework's
      measures, and every row carries the unit's J, R, E and M and its
      experiment number. */
  lemma MetaOutcomeRows(filename: string, c: Components, labels: Labels, frameworks: seq<string>,
                        jsons: map<string, map<string, seq<seq<int>>>>, measure: string -> Measures,
                        rho: (string, string) -> real, i: nat, k: nat)
    requires ExtractComponents(filename) == Some(c)
    requires forall fw :: fw in frameworks && fw != "Random" ==> fw in jsons && filename in jsons[fw]
    requires IsDecimal(c.r)
    requires i < |NonRandom(frameworks)| && k < |InferenceMethods|
    ensures MetaOutcome(filename, labels, frameworks, jsons, measure, rho).Success?
    ensures var rows := MetaOutcome(filename, labels, frameworks, jsons, measure, rho).value;
            var fw := NonRandom(frameworks)[i];
            && |rows| == 4 * |NonRandom(frameworks)|
            && rows[4 * i + k].params ==
                 Params(DigitsOrEmptyValue(c.j), DecimalValue(c.r), EPretty(labels, c.e), DigitsOrEmptyValue(c.m))
            && rows[4 * i + k].d == MetaDict(FrameworkDict(fw, MetaENum(labels, c.e), jsons[fw][filename], measure(fw)),
                                              InferenceMethods[k], rho(fw, InferenceMethods[k]))
  {
    var fws := NonRandom(frameworks);
    forall q | 0 <= q < |fws| ensures fws[q] in jsons && filename in jsons[fws[q]] {
      assert fws[q] in fws;
    }
    AllDictsShape(NonRandom(frameworks), jsons, filename, MetaENum(labels, c.e), measure, rho, i, k);
  }

  /** The titles are pairwise different. */
  lemma MetaTitlesDistinct()
    ensures forall a, b :: 0 <= a < b < |MetaTitles| ==> MetaTitles[a] != MetaTitles[b]
  {
    forall a, b | 0 <= a < b < |MetaTitles| ensures MetaTitles[a] != MetaTitles[b] {
      if |MetaTitles[a]| == |MetaTitles[b]| {
        assert MetaTitles[a][4] != MetaTitles[b][4] || MetaTitles[a][5] != MetaTitles[b][5] ||
               MetaTitles[a][44] != MetaTitles[b][44];
      }
    }
  }

  /** The `k`-th configured experiment is shown as the `k`-th title and numbered
      `exp_nums[k]`; unlike save_csv.py, no configured experiment is numbered 0. */
  lemma MetaExperimentNumber(experiments: seq<string>, k: nat)
    requires k < |experiments| && k < |MetaTitles|
    requires forall a, b :: 0 <= a < b < |experiments| ==> experiments[a] != experiments[b]
    ensures EPretty(MetaLabels(experiments), experiments[k]) == MetaTitles[k]
    ensures MetaENum(MetaLabels(experiments), experiments[k]) == MetaExpNums[k] > 0
  {
    ZipMapAt(experiments, MetaTitles, k);
    MetaTitlesDistinct();
    ZipMapAt(MetaTitles, MetaExpNums, k);
    MetaExpNumsPositive(k);
  }

  lemma MetaExpNumsPositive(k: nat)
    requires k < |MetaExpNums|
    ensures MetaExpNums[k] > 0
  {
  }

  /** The Mallows data directories written by run_gen.py are both sampled with
      the method `Mallows_Tau`, and both with temperature 10: the name
      `Mallows_Tau_T1.0` is not the `Mallows_Tau_T1` that selects temperature 1. */
  lemma MallowsDirectoriesTemperature()
    ensures var dirs := Generate.DataDirNames("Mallows_Tau");
            && |dirs| == 2
            && forall k :: 0 <= k < 2 ==> MpMethod(dirs[k]) == "Mallows_Tau" && MallowsTemperature(dirs[k]) == 10
    ensures MallowsTemperature("Mallows_Tau_T1") == 1
  {
    var mt := "Mallows_Tau";
    assert OccursAt(mt, "Mallows", 0);
    var dirs := Generate.DataDirNames(mt);
    forall k | 0 <= k < 2 ensures Contains(dirs[k], mt) && dirs[k] != "Mallows_Tau_T1" {
      assert OccursAt(dirs[k], mt, 0);
      assert |dirs[k]| != |"Mallows_Tau_T1"|;
    }
  }
}
