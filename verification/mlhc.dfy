/** The estimation phase of run_mlhc.py: for one unit and every data directory,
    each partial ranking of the unit is re-estimated from its own data file
    `PR{idx}_m{M}_j{J * TIMES_MORE}_r{R}_E{E}.csv`, and the biomarker names of
    the order with the highest likelihood, sorted by their value, become
    biomarker indices. The estimator itself is outside the model and enters as
    the function `highestLl`. */
module Mlhc {
  import opened Wrappers
  import opened Strings
  import opened Sorting
  import opened UnitName
  import opened Biomarkers
  import Generate

  /** `order_with_highest_ll.items()`: biomarker names with their values, in the
      dictionary's insertion order. */
  type Likelihoods = seq<(string, real)>

  /** The sort key `item[1]`. */
  predicate ByValue(a: (string, real), b: (string, real))
  {
    a.1 <= b.1
  }

  lemma ByValueTotalPreorder()
    ensures Total(ByValue) && Transitive(ByValue)
  {
  }

  /** The names of a list of items, in order. */
  function Names(items: Likelihoods): (names: seq<string>)
    ensures |names| == |items| && forall i :: 0 <= i < |items| ==> names[i] == items[i].0
  {
    if items == [] then [] else [items[0].0] + Names(items[1..])
  }

  /** `sorted(order_with_highest_ll.items(), key=lambda item: item[1])`. */
  function SortedItems(ll: Likelihoods): (items: Likelihoods)
    ensures |items| == |ll|
  {
    SortBy(ll, ByValue)
  }

  /** `partial_ordering_str`. */
  function OrderingNames(ll: Likelihoods): (names: seq<string>)
    ensures |names| == |ll|
  {
    Names(SortedItems(ll))
  }

  /** `[str2int[bm] for bm in names]`, or `None` when a name is not a key of
      `str2int` (the lookup raises `KeyError`). */
  function ToIndices(names: seq<string>, str2int: map<string, int>): (r: Option<seq<int>>)
    ensures r.Some? <==> forall i :: 0 <= i < |names| ==> names[i] in str2int
    ensures r.Some? ==> |r.value| == |names| && forall i :: 0 <= i < |names| ==> r.value[i] == str2int[names[i]]
  {
    if names == [] then Some([])
    else
      var init := names[..|names| - 1];
      var last := names[|names| - 1];
      match ToIndices(init, str2int)
      case None => None
      case Some(rs) => if last in str2int then Some(rs + [str2int[last]]) else None
  }

  /** `partial_ordering` of one estimate. */
  function PartialOrdering(ll: Likelihoods, str2int: map<string, int>): Option<seq<int>>
  {
    ToIndices(OrderingNames(ll), str2int)
  }

  /** The sorted items are a permutation of the estimate, ordered by value. */
  lemma SortedItemsOrdered(ll: Likelihoods)
    ensures multiset(SortedItems(ll)) == multiset(ll)
    ensures forall i, j :: 0 <= i < j < |ll| ==> SortedItems(ll)[i].1 <= SortedItems(ll)[j].1
  {
    ByValueTotalPreorder();
    SortBySorted(ll, ByValue);
  }

  /** The sort is stable: the items of any one value keep the order they had in
      the dictionary. */
  lemma SortedItemsStable(ll: Likelihoods, v: real)
    ensures EquivalentTo(SortedItems(ll), ByValue, ("", v)) == EquivalentTo(ll, ByValue, ("", v))
    ensures forall x :: x in EquivalentTo(ll, ByValue, ("", v)) <==> x in ll && x.1 == v
  {
    ByValueTotalPreorder();
    SortByStable(ll, ByValue, ("", v));
  }

  /** The ordering lists every key of the estimate exactly once. */
  lemma OrderingNamesPermutation(ll: Likelihoods)
    requires Distinct(Names(ll))
    ensures Distinct(OrderingNames(ll))
    ensures forall k :: k in OrderingNames(ll) <==> k in Names(ll)
  {
    var items := SortedItems(ll);
    var names := OrderingNames(ll);
    SortedItemsOrdered(ll);
    forall k ensures k in names <==> k in Names(ll) {
      NamesOfPermutation(ll, k);
    }
    forall i, j | 0 <= i < j < |names| ensures names[i] != names[j] {
      SameNameSameItem(ll, items, i, j);
    }
  }

  /** Two positions of a permutation of `ll` holding the same name would hold
      two items of `ll` with that name. */
  lemma SameNameSameItem(ll: Likelihoods, items: Likelihoods, i: nat, j: nat)
    requires Distinct(Names(ll)) && multiset(items) == multiset(ll)
    requires i < j < |items|
    ensures items[i].0 != items[j].0
  {
    assert Distinct(ll) by {
      forall a, b | 0 <= a < b < |ll| ensures ll[a] != ll[b] {
        assert Names(ll)[a] != Names(ll)[b];
      }
    }
    DistinctPermutation(ll, items);
    assert items[i] in multiset(ll) && items[j] in multiset(ll);
    var p :| 0 <= p < |ll| && ll[p] == items[i];
    var q :| 0 <= q < |ll| && ll[q] == items[j];
    assert p != q;
    assert Names(ll)[p] == items[i].0 && Names(ll)[q] == items[j].0;
  }

  /** With `str2int` built from the parameter names, the ordering converts
      exactly when every estimated name is a parameter name; the indices are
      then in `0..N-1`, and `int2str` reads each back as its name. */
  lemma PartialOrderingIndices(ll: Likelihoods, keys: seq<string>)
    requires Distinct(keys)
    ensures PartialOrdering(ll, Str2Int(keys)).Some? <==> forall k :: k in Names(ll) ==> k in keys
    ensures PartialOrdering(ll, Str2Int(keys)).Some? ==>
              var r := PartialOrdering(ll, Str2Int(keys)).value;
              && |r| == |ll|
              && forall i :: 0 <= i < |r| ==>
                   0 <= r[i] < |keys| && r[i] in Int2Str(keys) && Int2Str(keys)[r[i]] == OrderingNames(ll)[i]
  {
    var names := OrderingNames(ll);
    Str2IntInverse(keys);
    Int2StrDomain(keys);
    forall k ensures k in names <==> k in Names(ll) {
      NamesOfPermutation(ll, k);
    }
  }

  /** The sorted items carry the same names as the estimate. */
  lemma NamesOfPermutation(ll: Likelihoods, k: string)
    ensures k in OrderingNames(ll) <==> k in Names(ll)
  {
    var items := SortedItems(ll);
    SortedItemsOrdered(ll);
    if k in OrderingNames(ll) {
      var i :| 0 <= i < |items| && OrderingNames(ll)[i] == k;
      assert items[i] in multiset(ll);
      var p :| 0 <= p < |ll| && ll[p] == items[i];
      assert Names(ll)[p] == k;
    }
    if k in Names(ll) {
      var p :| 0 <= p < |ll| && Names(ll)[p] == k;
      assert ll[p] in multiset(items);
      var i :| 0 <= i < |items| && items[i] == ll[p];
      assert OrderingNames(ll)[i] == k;
    }
  }

  /** `f"PR{idx}_m{M}_j{five_times_J}_r{R}_E{E}.csv"`, with
      `five_times_J = int(J) * TIMES_MORE`. */
  function PrDataFileName(idx: nat, c: Components, timesMore: nat): string
    requires IsDigits(c.j)
  {
    "PR" + NatToString(idx) + "_m" + c.m + "_j" + NatToString(DigitsValue(c.j) * timesMore) +
      "_r" + c.r + "_E" + c.e + ".csv"
  }

  /** The index a partial-ranking file name starts with: the digits after `PR`. */
  function PrIndex(name: string): (idx: nat)
  {
    if |name| < 2 then 0
    else
      var n := Span(name[2..], IsDigit);
      DigitsValue(name[2..][..n])
  }

  /** The index is read back from the file name, so different partial rankings
      of a unit read different files. */
  lemma PrIndexRoundTrip(idx: nat, c: Components, timesMore: nat)
    requires IsDigits(c.j)
    ensures PrIndex(PrDataFileName(idx, c, timesMore)) == idx
  {
    var name := PrDataFileName(idx, c, timesMore);
    var d := NatToString(idx);
    var rest := "_m" + c.m + "_j" + NatToString(DigitsValue(c.j) * timesMore) + "_r" + c.r + "_E" + c.e + ".csv";
    var tail := d + rest;
    assert name == "PR" + tail;
    assert name[2..] == tail;
    SpanConcat(d, rest, IsDigit);
    assert (d + rest)[..|d|] == d;
    NatToStringValue(idx);
  }

  lemma PrDataFileNamesDistinct(c: Components, timesMore: nat, a: nat, b: nat)
    requires IsDigits(c.j) && a != b
    ensures PrDataFileName(a, c, timesMore) != PrDataFileName(b, c, timesMore)
  {
    PrIndexRoundTrip(a, c, timesMore);
    PrIndexRoundTrip(b, c, timesMore);
  }

  /** The file read for partial ranking `idx` agrees with the run_gen.py call
      for the same unit and index in its prefix `PR{idx}_m{M}` and in its J part,
      the call's number of subjects. The rest of the name is built from the unit
      name's R and E text; the generator receives `float(R)`, and the name it
      writes is not part of this model. */
  lemma PrDataFileOfJob<V>(dir: string, c: Components, rows: seq<seq<int>>, int2str: map<int, string>,
                           params: map<string, V>, timesMore: nat, idx: nat)
    requires forall i :: i in int2str ==> int2str[i] in params
    requires IsDigits(c.j) && idx < |rows|
    ensures var job := Generate.UnitJobs(dir, c, rows, int2str, params, timesMore)[idx];
            && job.j >= 0
            && PrDataFileName(idx, c, timesMore) ==
                 job.prefix + "_j" + NatToString(job.j as nat) + "_r" + c.r + "_E" + c.e + ".csv"
  {
    Generate.UnitJobAt(dir, c, rows, int2str, params, timesMore, idx);
  }

  /** Why the script stops for a data directory: the unit name does not decode,
      the unit's data file does not exist (`sys.exit(1)`), the directory's JSON
      file does not exist, it has no entry for the unit, or an estimated name is
      not a parameter name (the last three raise). An entry is taken to hold
      `true_order`, `true_stages` and `ordering_array`, so the `KeyError` of a
      missing one of them is not among them. */
  datatype MlhcError =
    | BadName
    | MissingDataFile(dir: string)
    | MissingJson(dir: string)
    | MissingUnit(dir: string)
    | UnknownBiomarker(dir: string, idx: nat)

  /** The estimated partial rankings `0..n-1` of one directory, or the first
      that cannot be converted. */
  function Estimates(dir: string, n: nat, ordering: nat -> Option<seq<int>>): Result<seq<seq<int>>, MlhcError>
  {
    if n == 0 then Success([])
    else
      match Estimates(dir, n - 1, ordering)
      case Failure(err) => Failure(err)
      case Success(es) =>
        match ordering(n - 1)
        case None => Failure(UnknownBiomarker(dir, n - 1))
        case Some(o) => Success(es + [o])
  }

  /** The ordering of partial ranking `idx`, read from its data file and
      converted to indices. */
  function OrderingOf(dir: string, c: Components, str2int: map<string, int>, timesMore: nat,
                      highestLl: (string, string) -> Likelihoods): nat -> Option<seq<int>>
    requires IsDigits(c.j)
  {
    (idx: nat) => PartialOrdering(highestLl(dir, PrDataFileName(idx, c, timesMore)), str2int)
  }

  lemma OrderingOfAt(dir: string, c: Components, str2int: map<string, int>, timesMore: nat,
                     highestLl: (string, string) -> Likelihoods, idx: nat)
    requires IsDigits(c.j)
    ensures OrderingOf(dir, c, str2int, timesMore, highestLl)(idx)
            == PartialOrdering(highestLl(dir, PrDataFileName(idx, c, timesMore)), str2int)
  {
  }

  /** `estimated_partial_rankings` of one data directory, or why the script stops
      there. `dataFiles` holds the (directory, file) pairs that exist and `jsons`
      the ordering arrays of each directory whose JSON file exists. */
  function DirOutcome(filename: string, dir: string, dataFiles: set<(string, string)>,
                      jsons: map<string, map<string, seq<seq<int>>>>, str2int: map<string, int>,
                      timesMore: nat, highestLl: (string, string) -> Likelihoods)
    : Result<seq<seq<int>>, MlhcError>
  {
    match ExtractComponents(filename)
    case None => Failure(BadName)
    case Some(c) =>
      ExtractedGroups(filename, c);
      if (dir, filename + ".csv") !in dataFiles then Failure(MissingDataFile(dir))
      else if dir !in jsons then Failure(MissingJson(dir))
      else if filename !in jsons[dir] then Failure(MissingUnit(dir))
      else Estimates(dir, |jsons[dir][filename]|, OrderingOf(dir, c, str2int, timesMore, highestLl))
  }

  /** The loop over `MP_DATA_DIR` for a per-directory step: the results of
      every directory in order, or the first failure. */
  function RunDirs<R>(dirs: seq<string>, step: string -> Result<R, MlhcError>): Result<seq<R>, MlhcError>
  {
    if dirs == [] then Success([])
    else
      match RunDirs(dirs[..|dirs| - 1], step)
      case Failure(err) => Failure(err)
      case Success(acc) =>
        match step(dirs[|dirs| - 1])
        case Failure(err) => Failure(err)
        case Success(x) => Success(acc + [x])
  }

  /** The body of the loop as a step. */
  function DirStep(filename: string, dataFiles: set<(string, string)>,
                   jsons: map<string, map<string, seq<seq<int>>>>, str2int: map<string, int>,
                   timesMore: nat, highestLl: (string, string) -> Likelihoods)
    : string -> Result<seq<seq<int>>, MlhcError>
  {
    dir => DirOutcome(filename, dir, dataFiles, jsons, str2int, timesMore, highestLl)
  }

  /** The estimates of every data directory in order, or the first failure. */
  function MlhcOutcome(filename: string, dirs: seq<string>, dataFiles: set<(string, string)>,
                       jsons: map<string, map<string, seq<seq<int>>>>, str2int: map<string, int>,
                       timesMore: nat, highestLl: (string, string) -> Likelihoods)
    : Result<seq<seq<seq<int>>>, MlhcError>
  {
    RunDirs(dirs, DirStep(filename, dataFiles, jsons, str2int, timesMore, highestLl))
  }

  /** `__main__` of run_mlhc.py up to `get_unique_rows`: `keys` are the names of
      the parameter file. */
  method EstimateAll(filename: string, keys: seq<string>, dirs: seq<string>, dataFiles: set<(string, string)>,
                     jsons: map<string, map<string, seq<seq<int>>>>, timesMore: nat,
                     highestLl: (string, string) -> Likelihoods)
    returns (result: Result<seq<seq<seq<int>>>, MlhcError>)
    ensures result == MlhcOutcome(filename, dirs, dataFiles, jsons, Str2Int(keys), timesMore, highestLl)
  {
    var str2int := Str2Int(keys);
    ghost var step := DirStep(filename, dataFiles, jsons, str2int, timesMore, highestLl);
    result := EstimateDirs(filename, dirs, dataFiles, jsons, str2int, timesMore, highestLl, step);
  }

  /** The loop over `MP_DATA_DIR`. */
  method EstimateDirs(filename: string, dirs: seq<string>, dataFiles: set<(string, string)>,
                      jsons: map<string, map<string, seq<seq<int>>>>, str2int: map<string, int>, timesMore: nat,
                      highestLl: (string, string) -> Likelihoods,
                      ghost step: string -> Result<seq<seq<int>>, MlhcError>)
    returns (result: Result<seq<seq<seq<int>>>, MlhcError>)
    requires step == DirStep(filename, dataFiles, jsons, str2int, timesMore, highestLl)
    ensures result == RunDirs(dirs, step)
  {
    var acc: seq<seq<seq<int>>> := [];
    for i := 0 to |dirs|
      invariant RunDirs(dirs[..i], step) == Success(acc)
    {
      var r := EstimateStep(filename, dirs[i], dataFiles, jsons, str2int, timesMore, highestLl, step);
      if r.Failure? {
        RunDirsStopsAt(dirs, i, step);
        return Failure(r.error);
      }
      RunDirsNext(dirs, i, step, acc);
      acc := acc + [r.value];
    }
    assert dirs[..|dirs|] == dirs;
    result := Success(acc);
  }

  /** One directory, as the step of the loop. */
  method EstimateStep(filename: string, dir: string, dataFiles: set<(string, string)>,
                      jsons: map<string, map<string, seq<seq<int>>>>, str2int: map<string, int>,
                      timesMore: nat, highestLl: (string, string) -> Likelihoods,
                      ghost step: string -> Result<seq<seq<int>>, MlhcError>)
    returns (result: Result<seq<seq<int>>, MlhcError>)
    requires step == DirStep(filename, dataFiles, jsons, str2int, timesMore, highestLl)
    ensures result == step(dir)
  {
    result := EstimateDir(filename, dir, dataFiles, jsons, str2int, timesMore, highestLl);
    DirStepAt(filename, dir, dataFiles, jsons, str2int, timesMore, highestLl);
  }

  lemma DirStepAt(filename: string, dir: string, dataFiles: set<(string, string)>,
                  jsons: map<string, map<string, seq<seq<int>>>>, str2int: map<string, int>,
                  timesMore: nat, highestLl: (string, string) -> Likelihoods)
    ensures DirStep(filename, dataFiles, jsons, str2int, timesMore, highestLl)(dir)
            == DirOutcome(filename, dir, dataFiles, jsons, str2int, timesMore, highestLl)
  {
  }

  /** The body of the loop over `MP_DATA_DIR`. */
  method EstimateDir(filename: string, dir: string, dataFiles: set<(string, string)>,
                     jsons: map<string, map<string, seq<seq<int>>>>, str2int: map<string, int>,
                     timesMore: nat, highestLl: (string, string) -> Likelihoods)
    returns (result: Result<seq<seq<int>>, MlhcError>)
    ensures result == DirOutcome(filename, dir, dataFiles, jsons, str2int, timesMore, highestLl)
  {
    var parts := ExtractComponents(filename);
    if parts.None? {
      return Failure(BadName);
    }
    var c := parts.value;
    ExtractedGroups(filename, c);
    if (dir, filename + ".csv") !in dataFiles {
      return Failure(MissingDataFile(dir));
    }
    if dir !in jsons {
      return Failure(MissingJson(dir));
    }
    if filename !in jsons[dir] {
      return Failure(MissingUnit(dir));
    }
    var n := |jsons[dir][filename]|;
    ghost var orderingOf := OrderingOf(dir, c, str2int, timesMore, highestLl);
    var estimates: seq<seq<int>> := [];
    for idx := 0 to n
      invariant Estimates(dir, idx, orderingOf) == Success(estimates)
    {
      var prFile := PrDataFileName(idx, c, timesMore);
      var ordering := PartialOrdering(highestLl(dir, prFile), str2int);
      OrderingOfAt(dir, c, str2int, timesMore, highestLl, idx);
      if ordering.None? {
        EstimatesFailureSticks(dir, idx + 1, n, orderingOf);
        return Failure(UnknownBiomarker(dir, idx));
      }
      estimates := estimates + [ordering.value];
    }
    result := Success(estimates);
  }

  /** Once a partial ranking cannot be converted, the later ones are not reached. */
  lemma {:induction false} EstimatesFailureSticks(dir: string, m: nat, n: nat, ordering: nat -> Option<seq<int>>)
    requires m <= n
    requires Estimates(dir, m, ordering).Failure?
    ensures Estimates(dir, n, ordering) == Estimates(dir, m, ordering)
    decreases n
  {
    if m < n {
      EstimatesFailureSticks(dir, m, n - 1, ordering);
    }
  }

  /** A directory that succeeds adds its result after the earlier ones. */
  lemma RunDirsNext<R>(dirs: seq<string>, i: nat, step: string -> Result<R, MlhcError>, acc: seq<R>)
    requires i < |dirs| && RunDirs(dirs[..i], step) == Success(acc) && step(dirs[i]).Success?
    ensures RunDirs(dirs[..i + 1], step) == Success(acc + [step(dirs[i]).value])
  {
    assert dirs[..i + 1][..i] == dirs[..i];
  }

  /** The first directory that fails ends the loop with its error. */
  lemma RunDirsStopsAt<R>(dirs: seq<string>, i: nat, step: string -> Result<R, MlhcError>)
    requires i < |dirs| && RunDirs(dirs[..i], step).Success? && step(dirs[i]).Failure?
    ensures RunDirs(dirs, step) == Failure(step(dirs[i]).error)
  {
    assert dirs[..i + 1][..i] == dirs[..i];
    RunDirsFailureSticks(dirs[..i + 1], dirs[i + 1..], step);
    assert dirs[..i + 1] + dirs[i + 1..] == dirs;
  }

  /** Once a directory fails, the later directories are not reached. */
  lemma {:induction false} RunDirsFailureSticks<R>(a: seq<string>, b: seq<string>,
                                                  step: string -> Result<R, MlhcError>)
    requires RunDirs(a, step).Failure?
    ensures RunDirs(a + b, step) == RunDirs(a, step)
  {
    if b == [] {
      assert a + b == a;
    } else {
      RunDirsFailureSticks(a, b[..|b| - 1], step);
      assert (a + b)[..|a + b| - 1] == a + b[..|b| - 1];
    }
  }

  /** One estimate per row of the ordering array: the `idx`-th is the ordering
      read from the data file of partial ranking `idx`. */
  lemma {:induction false} EstimatesAt(dir: string, n: nat, ordering: nat -> Option<seq<int>>, idx: nat)
    requires Estimates(dir, n, ordering).Success?
    requires idx < n
    ensures var es := Estimates(dir, n, ordering).value;
            |es| == n && ordering(idx) == Some(es[idx])
  {
    EstimatesLength(dir, n - 1, ordering);
    if idx < n - 1 {
      EstimatesAt(dir, n - 1, ordering, idx);
    }
  }

  lemma {:induction false} EstimatesLength(dir: string, n: nat, ordering: nat -> Option<seq<int>>)
    requires Estimates(dir, n, ordering).Success?
    ensures |Estimates(dir, n, ordering).value| == n
  {
    if n > 0 {
      EstimatesLength(dir, n - 1, ordering);
    }
  }

  /** The estimates of a directory exist exactly when every partial ranking's
      ordering converts; otherwise the first that does not is reported. */
  lemma {:induction false} EstimatesSuccess(dir: string, n: nat, ordering: nat -> Option<seq<int>>)
    ensures Estimates(dir, n, ordering).Success? <==> forall idx :: 0 <= idx < n ==> ordering(idx).Some?
    ensures Estimates(dir, n, ordering).Failure? ==>
              exists idx :: 0 <= idx < n && ordering(idx).None? &&
                (forall k :: 0 <= k < idx ==> ordering(k).Some?) &&
                Estimates(dir, n, ordering).error == UnknownBiomarker(dir, idx)
  {
    if n > 0 {
      EstimatesSuccess(dir, n - 1, ordering);
      var prev := Estimates(dir, n - 1, ordering);
      if prev.Success? {
        assert Estimates(dir, n, ordering).Success? <==> ordering(n - 1).Some?;
      } else {
        var idx :| 0 <= idx < n - 1 && ordering(idx).None? &&
          (forall k :: 0 <= k < idx ==> ordering(k).Some?) && prev.error == UnknownBiomarker(dir, idx);
      }
    }
  }

  /** A directory that yields estimates has its JSON entry, and one estimate per
      row of its ordering array. */
  lemma DirOutcomeSuccess(filename: string, dir: string, dataFiles: set<(string, string)>,
                          jsons: map<string, map<string, seq<seq<int>>>>, str2int: map<string, int>,
                          timesMore: nat, highestLl: (string, string) -> Likelihoods)
    requires DirOutcome(filename, dir, dataFiles, jsons, str2int, timesMore, highestLl).Success?
    ensures ExtractComponents(filename).Some? && (dir, filename + ".csv") in dataFiles
    ensures dir in jsons && filename in jsons[dir]
    ensures |DirOutcome(filename, dir, dataFiles, jsons, str2int, timesMore, highestLl).value| ==
            |jsons[dir][filename]|
  {
    var c := ExtractComponents(filename).value;
    EstimatesLength(dir, |jsons[dir][filename]|, OrderingOf(dir, c, str2int, timesMore, highestLl));
  }

  /** A successful loop has one result per directory, the `i`-th being the
      step's result for the `i`-th directory. */
  lemma {:induction false} RunDirsShape<R>(dirs: seq<string>, step: string -> Result<R, MlhcError>, i: nat)
    requires RunDirs(dirs, step).Success?
    requires i < |dirs|
    ensures |RunDirs(dirs, step).value| == |dirs|
    ensures step(dirs[i]) == Success(RunDirs(dirs, step).value[i])
  {
    var init := dirs[..|dirs| - 1];
    RunDirsLength(init, step);
    if i < |init| {
      RunDirsShape(init, step, i);
      assert dirs[i] == init[i];
    }
  }

  lemma {:induction false} RunDirsLength<R>(dirs: seq<string>, step: string -> Result<R, MlhcError>)
    requires RunDirs(dirs, step).Success?
    ensures |RunDirs(dirs, step).value| == |dirs|
  {
    if dirs != [] {
      RunDirsLength(dirs[..|dirs| - 1], step);
    }
  }

  /** A successful run has one list of estimates per data directory: that
      directory's estimates, one per row of its ordering array. */
  lemma MlhcOutcomeShape(filename: string, dirs: seq<string>, dataFiles: set<(string, string)>,
                         jsons: map<string, map<string, seq<seq<int>>>>,
                         str2int: map<string, int>, timesMore: nat,
                         highestLl: (string, string) -> Likelihoods, i: nat)
    requires MlhcOutcome(filename, dirs, dataFiles, jsons, str2int, timesMore, highestLl).Success?
    requires i < |dirs|
    ensures var r := MlhcOutcome(filename, dirs, dataFiles, jsons, str2int, timesMore, highestLl).value;
            && |r| == |dirs|
            && DirOutcome(filename, dirs[i], dataFiles, jsons, str2int, timesMore, highestLl) == Success(r[i])
            && dirs[i] in jsons && filename in jsons[dirs[i]] && |r[i]| == |jsons[dirs[i]][filename]|
  {
    var step := DirStep(filename, dataFiles, jsons, str2int, timesMore, highestLl);
    RunDirsShape(dirs, step, i);
    assert step(dirs[i]) == DirOutcome(filename, dirs[i], dataFiles, jsons, str2int, timesMore, highestLl);
    DirOutcomeSuccess(filename, dirs[i], dataFiles, jsons, str2int, timesMore, highestLl);
  }

  /** The unit name is decoded inside the loop over the directories: with no
      directory configured nothing is checked, and otherwise a name the pattern
      rejects stops the run at the first directory. */
  lemma MlhcNameChecked(filename: string, dirs: seq<string>, dataFiles: set<(string, string)>,
                        jsons: map<string, map<string, seq<seq<int>>>>, str2int: map<string, int>,
                        timesMore: nat, highestLl: (string, string) -> Likelihoods)
    ensures dirs == [] ==> MlhcOutcome(filename, dirs, dataFiles, jsons, str2int, timesMore, highestLl) == Success([])
    ensures dirs != [] && ExtractComponents(filename).None? ==>
              MlhcOutcome(filename, dirs, dataFiles, jsons, str2int, timesMore, highestLl) == Failure(BadName)
  {
    if dirs != [] && ExtractComponents(filename).None? {
      var first := dirs[..1];
      assert first[..0] == [];
      var step := DirStep(filename, dataFiles, jsons, str2int, timesMore, highestLl);
      assert step(dirs[0]) == Failure(BadName);
      RunDirsFailureSticks(first, dirs[1..], step);
      assert first + dirs[1..] == dirs;
    }
  }
}
