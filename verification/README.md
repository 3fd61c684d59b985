# jpm experiment drivers, modelled in Dafny

This project models the four driver scripts of the jpm simulation study. They
generate data, estimate partial rankings, build the meta table and collect the
results.

- **save_csv.py** walks `OUTPUT_DIR/<data_dir>/<algo>/results` and decodes each
  `*_results.json` file name (`j{J}_r{R}_E{E}_m{M}`). It checks the name against
  the configured grid (`JS`, `RS`, `EXPERIMENT_NAMES`, `N_VARIANTS`), reads the
  metrics, and records the file, fails it with a reason, or skips it when its
  experiment number is 0. It then writes:
  - the records, sorted by J, R, E, M and algorithm;
  - the expected files that were not found, with their distinct unit names;
  - the failures.
- **run_gen.py** does the following:
  - merges the per-experiment dictionaries of true orders and stages;
  - normalises numpy values to plain Python values;
  - asks the generator for one partial-ranking data set per row of each unit's
    ordering array, with the parameters of the biomarkers that row ranks and
    the prefix `PR{idx}_m{M}`.
- **run_meta.py** builds the per-unit table. Every data framework except
  `Random` gives four rows, one per inference method. The rows share the
  framework's overlap rate and measures, and every row carries the unit's J,
  R, E and M.
- **run_mlhc.py** does the following for every data directory:
  - reads the ordering of highest likelihood of each partial-ranking data file;
  - turns it into biomarker indices through `str2int`;
  - stops at the first directory that lacks its data file, its JSON file or
    the unit's entry.

How the model is laid out:

- **Shared pieces.** Each has a module of its own:
  - the file-name codec (`UnitName`), which gives Python `re.match` semantics to
    the pattern `^j(\d+)_r([\d.]+)_E(.*?)_m(\d+)$`;
  - the biomarker index maps (`Biomarkers`);
  - `get_overlap_rate` (`Overlap`);
  - `convert_np_types` (`NpConvert`);
  - string, sorting and dictionary helpers (`Strings`, `Sorting`, `Dicts`).
- **Loops.** Where a script loops, the model has a method with a loop. The
  method is proved equal to a function, and lemmas state what the scripts
  promise about that function:
  - the expected-file grid (`ExpectedFiles`);
  - the walk and classification of save_csv.py (`Reconcile`, `Diagnostics`);
  - the partial-ranking requests of run_gen.py (`Generate`);
  - the meta table (`MetaTable`);
  - the estimation loop of run_mlhc.py (`Mlhc`).

The two copies of the experiment tables differ, and the model keeps each copy
as written:

- In save_csv.py (lines 80-95), the ninth experiment is titled "Exp 0" and has
  number 0. Files of that experiment pass every check and are then skipped
  silently (`Reconcile.ExperimentNumber`).
- In run_meta.py (lines 56-71), the same experiment is "Exp 10", and the numbers
  run 1 to 12 (`MetaTable.MetaExperimentNumber`).

In run_meta.py, the Mallows temperature is 1 only for the exact framework name
`Mallows_Tau_T1`. run_gen.py names its Mallows directories `Mallows_Tau_T1.0` and
`Mallows_Tau_T10.0`. Both of those names get temperature 10
(`MetaTable.MallowsDirectoriesTemperature`).

## Model

| member | source | states |
|---|---|---|
| Strings.NatToString | save_csv.py:32 | `str(n)` of a natural is a non-empty run of digits with no leading zero unless `n` is 0 |
| Strings.NatToStringValue | save_csv.py:152 | `int(str(n)) == n`: the J and M written into a file name read back as the same numbers |
| Strings.NatToStringInjective | save_csv.py:32 | different numbers give different decimal strings |
| Strings.NatToStringDecimal | save_csv.py:153 | `str(n)` is a valid `float` literal whose value is `n` |
| Strings.RemoveAllAbsent | save_csv.py:16 | `replace` of a pattern that does not occur leaves the name unchanged |
| Strings.RemoveAllSuffix | save_csv.py:16 | `replace('_results.json', '')` on a name whose only occurrence is the final suffix yields the stem |
| Strings.StrLtTrichotomy | save_csv.py:257 | Python string order is total and asymmetric |
| Strings.StrLtTransitive | save_csv.py:257 | Python string order is transitive |
| UnitName.SplitMSound | save_csv.py:17 | the split at `_m` yields a lazy `E` without newline and an all-digit `M` that recompose the text |
| UnitName.SplitMComplete | save_csv.py:17 | every `E + "_m" + M` with digit `M` and newline-free `E` splits back into that `E` and `M` |
| UnitName.SplitRSound | save_csv.py:17 | the split at `_E` yields a `[\d.]+` group that recomposes the text |
| UnitName.SplitRComplete | save_csv.py:17 | every `R + "_E" + rest` with `R` in `[\d.]+` splits back into `R` and `rest` |
| UnitName.SplitJSound | save_csv.py:17 | the split at `_r` yields a `\d+` group that recomposes the text |
| UnitName.SplitJComplete | save_csv.py:17 | every `J + "_r" + rest` with digit `J` splits back into `J` and `rest` |
| UnitName.TailComplete | save_csv.py:17 | `$` matches at the end and before one final newline |
| UnitName.ExtractedGroups | save_csv.py:20 | the groups returned are digits, digits-or-dots, newline-free and digits |
| UnitName.ExtractSound | save_csv.py:17-20 | every tuple returned matches the pattern on the name |
| UnitName.ExtractComplete | save_csv.py:17-20 | every match of the pattern is the one returned |
| UnitName.ExtractComponentsIff | run_gen.py:10-15 | `extract_components` returns groups iff the pattern matches with exactly those groups, and `None` iff no groups match |
| UnitName.NoSuffixBefore | save_csv.py:32 | a generated file name contains `_results.json` only at its end when `E` does not contain it |
| UnitName.ResultFileNameRoundTrip | save_csv.py:14-21 | decoding the file name generated for (J, R, E, M) gives back `str(J)`, `R`, `E`, `str(M)` |
| UnitName.ResultFileNameStem | save_csv.py:254 | the stem of a generated file name is the unit name `j{J}_r{R}_E{E}_m{M}` |
| UnitName.ExtractWithoutSuffixAgrees | run_meta.py:12-17 | on names without `_results.json`, the save_csv.py decoder and the plain decoder of the other scripts agree |
| Dicts.Get | save_csv.py:182-184 | `dict.get(k, default)` gives the value at `k` when present and the default otherwise |
| Dicts.ZipMapKeys | save_csv.py:102-104 | the keys of `dict(zip(ks, vs))` are the keys that have a partner value |
| Dicts.ZipMapAt | save_csv.py:102-104 | with distinct keys, `dict(zip(ks, vs))[ks[i]] == vs[i]` |
| Dicts.ZipMapRenameLast | save_csv.py:103 | renaming only the last algorithm maps `saebm` to `EBM` and every other name to itself |
| Dicts.LastHolder | run_gen.py:92 | the index of the last dictionary holding a key, none after it holding the key |
| Dicts.MergeLookup | run_gen.py:92 | a key is in the merged dictionary iff some dictionary holds it, and its value is the last holder's |
| Sorting.StrLeTotalPreorder | save_csv.py:257 | string order is total and transitive |
| Sorting.SortBy | save_csv.py:248 | sorting is a permutation of its input |
| Sorting.SortBySorted | save_csv.py:248 | the sorted list is ordered by the key |
| Sorting.SortByStable | save_csv.py:248 | the sort is stable: elements that tie keep their input order |
| Sorting.DistinctPermutation | save_csv.py:44 | a permutation of a list without repeats has none |
| Sorting.SortedSet | save_csv.py:257 | `sorted(s)` of a set lists exactly its members, once each, in order |
| Biomarkers.Range | save_csv.py:45 | `np.arange(0, n)` holds `0..n-1` in order |
| Biomarkers.SortedNames | save_csv.py:44 | `sorted(params.keys())` is an ordered permutation of the keys |
| Biomarkers.SortedNamesIncreasing | save_csv.py:44 | the sorted keys are strictly increasing |
| Biomarkers.Int2StrDomain | save_csv.py:47 | the keys of `int2str` are exactly `0..N-1` |
| Biomarkers.Int2StrAt | run_gen.py:50-52 | `int2str[i]` is the `i`-th name in sorted order |
| Biomarkers.Int2StrBijective | run_gen.py:50-52 | `int2str` maps `0..N-1` one-to-one onto the parameter names |
| Biomarkers.Int2StrValues | run_gen.py:52 | every parameter name is the image of some index |
| Biomarkers.Str2IntInverse | save_csv.py:46-47 | `str2int` and `int2str` are mutually inverse between the names and `0..N-1` |
| Overlap.CountBounds | run_meta.py:32-34 | the denominator is positive when an item exists, and the repeated count never exceeds it |
| Overlap.OverlapRate | run_meta.py:26-34 | the overlap rate lies in [0, 1] and is 0 when no item remains after dropping `-1` |
| Overlap.OverlapRateExtremes | run_meta.py:26-34 | the rate is 0 iff no item repeats, and 1 iff items exist and every one repeats |
| Overlap.FlattenRowPermutation | run_meta.py:27 | permuting the rows permutes the flattened cells |
| Overlap.DropSentinelCount | run_meta.py:28 | the filter removes every `-1` and keeps every other value as often as it occurs |
| Overlap.OverlapRateOfCells | run_meta.py:26-34 | the rate depends only on the multiset of cells |
| Overlap.OverlapRateRowOrder | run_meta.py:26-34 | the rate does not depend on the order of the partial rankings |
| Overlap.UniqueIsListed | run_meta.py:31 | an item is unique-listed iff it occurs after dropping `-1` |
| Overlap.RepeatedAtTwoPositions | run_meta.py:32 | an item counts as repeated iff it occurs at two positions of the filtered cells |
| Overlap.OverlapRateDoubled | run_meta.py:26-34 | duplicating all rankings makes every item repeat, so the rate is 1 |
| Overlap.OtherNegativesCountAsItems | run_meta.py:28 | padding other than `-1` counts as an item for the overlap rate while the length filter `x >= 0` drops it |
| Overlap.AveragePartialRankingLength | save_csv.py:132-136 | the loop computes the number of non-negative cells divided by the number of rows |
| NpConvert.ToList | run_gen.py:28 | `tolist()` keeps the length and does not grow the value |
| NpConvert.Convert | run_gen.py:17-30 | dicts keep keys in order, lists and arrays become lists of the same length, numpy integers and floats become Python ones, other values are unchanged |
| NpConvert.ConvertIsClean | run_gen.py:17-30 | the result holds no numpy integer, float or array, except inside tuples, as dictionary keys and as numpy booleans, which the conversion does not enter or change |
| NpConvert.ConvertClean | run_gen.py:29-30 | a value without numpy parts is returned unchanged |
| NpConvert.ConvertIdempotent | run_gen.py:93 | converting twice is the same as converting once |
| ExpectedFiles.Variants | save_csv.py:31 | `range(N_VARIANTS)` gives one file per variant, none when `N_VARIANTS <= 0` |
| ExpectedFiles.GenerateExpectedFiles | save_csv.py:23-34 | the set of expected triples is exactly the triples of the nested loops |
| ExpectedFiles.AppendUnits | save_csv.py:28-33 | the loop over `JS` appends the files of every J in order |
| ExpectedFiles.AppendRs | save_csv.py:29-33 | the loop over `RS` appends the files of every R in order |
| ExpectedFiles.AppendExperiments | save_csv.py:30-33 | the loop over experiments appends the files of every E in order |
| ExpectedFiles.AppendVariants | save_csv.py:31-33 | the loop over `range(N_VARIANTS)` appends the file of every M in order |
| ExpectedFiles.VariantsMembers | save_csv.py:31-33 | a triple comes from the variant loop iff it names some `0 <= M < N_VARIANTS` |
| ExpectedFiles.ExperimentsMembers | save_csv.py:30-33 | a triple comes from the experiment loop iff it names a configured E and a valid M |
| ExpectedFiles.RsMembers | save_csv.py:29-33 | a triple comes from the R loop iff it names a configured R, E and a valid M |
| ExpectedFiles.JsMembers | save_csv.py:28-33 | a triple comes from the J loop iff it names a configured J, R, E and a valid M |
| ExpectedFiles.AlgosMembers | save_csv.py:27-33 | a triple comes from the algorithm loop iff its algorithm is listed and its file is on the grid |
| ExpectedFiles.ExpectedMembers | save_csv.py:23-34 | a triple is expected iff its directory and algorithm are configured and its file name is on the grid |
| Reconcile.RValues | save_csv.py:163 | the values `float(R)` of the configured `RS`, position by position |
| Reconcile.CheckNameFailure | save_csv.py:145-171 | a name rejected by the name checks gets one of the six name reasons |
| Reconcile.CheckNameFormat | save_csv.py:145-148 | a name fails on its format iff the pattern does not match |
| Reconcile.CheckNameSuccess | save_csv.py:150-171 | a name that passes has J, R, E and M read from its groups and all on the configured grid |
| Reconcile.ClassifyNameFailure | save_csv.py:145-171 | a file fails with a name reason iff its name is invalid |
| Reconcile.ClassifyContentFailure | save_csv.py:173-189 | a valid name fails with "Unexpected error" when unreadable, "Invalid JSON format" when not JSON, and "Missing metrics" iff a metric is absent from an object; a JSON list or string fails with "Missing metrics" when a metric name is not in it and otherwise is skipped when the experiment number is 0 and fails with "Unexpected error" when it is not (lines 237-240); a number, boolean or null fails with "Unexpected error"; none of these is recorded |
| Reconcile.ClassifyRecorded | save_csv.py:182-236 | a file is recorded iff its name is valid, its JSON holds both metrics and its experiment number is non-zero; the record carries the pretty algorithm (`saebm` as `EBM`), the configured J/R/M and the metrics |
| Reconcile.TitlesDistinct | save_csv.py:80-93 | the experiment titles are distinct |
| Reconcile.ExperimentNumber | save_csv.py:95-104 | the k-th experiment gets the k-th title and number, and its number is 0 iff it is the ninth ("Exp 0") |
| Reconcile.ExpNumsZero | save_csv.py:95 | only the ninth experiment number is 0 |
| Reconcile.ExperimentWithoutTitle | save_csv.py:102-104 | an experiment beyond the titles, whose name is not itself a title, gets number 0 and is skipped |
| Reconcile.ResultFiles | save_csv.py:127 | the listed files kept are exactly those ending in `_results.json` |
| Reconcile.OutcomeOfAgrees | save_csv.py:128-240 | the outcome function classifies every visitable file as its own classification does |
| Reconcile.VisitFiles | save_csv.py:128 | the loop visits each listed file of one directory once, in order |
| Reconcile.VisitFilesMembers | save_csv.py:128 | a triple is visited in a directory iff its file is listed there |
| Reconcile.VisitAlgosMembers | save_csv.py:119-128 | a triple is visited in a data directory iff its algorithm is listed and its file is in that results directory |
| Reconcile.VisitDirsMembers | save_csv.py:114-128 | a triple is visited iff its data directory and algorithm are configured and its file is listed |
| Reconcile.RunFromAppend | save_csv.py:114-240 | the walk over two parts is the walk over the second from the state after the first |
| Reconcile.RunFromFound | save_csv.py:142 | `found_files` holds exactly the visited triples |
| Reconcile.RunFromFailed | save_csv.py:147-240 | a (file, reason) pair is in `failed_files` iff the file was visited and failed with that reason |
| Reconcile.RunFromRecords | save_csv.py:223-236 | a record is in `records` iff some visited file produced it |
| Reconcile.RunFromCount | save_csv.py:128-240 | every visited file adds exactly one failure, one record or one silent skip |
| Reconcile.FoundAreListed | save_csv.py:114-142 | after the walk, a triple is found iff its directory and algorithm are configured and its file is listed |
| Reconcile.ExpectedNameValid | save_csv.py:32 | every expected file name passes every name check and stands for its own J, R, E and M |
| Reconcile.ReconcileResults | save_csv.py:107-240 | the walk returns the found set, failures and records of `RunFrom` over the directories |
| Reconcile.ProcessDataDirs | save_csv.py:114-240 | the loop over data directories accumulates the tally of all their files |
| Reconcile.ProcessDataDir | save_csv.py:119-240 | the loop over algorithms accumulates the tally of one data directory, skipping missing directories |
| Reconcile.ProcessFiles | save_csv.py:128-240 | the loop over the listed files accumulates their tally in order |
| Reconcile.ProcessFile | save_csv.py:130-240 | one file is added to the found set and its outcome to the failures or the records |
| Diagnostics.RecordLeTotalPreorder | save_csv.py:248 | the (J, R, E, M, algo) order is total and transitive |
| Diagnostics.TripleLeTotalOrder | save_csv.py:257 | the tuple order is a total order |
| Diagnostics.Summarize | save_csv.py:107-293 | results are a (J, R, E, M, algo)-sorted permutation of the records; missing files are exactly the expected triples not listed, once each and sorted; the NA combinations are the distinct sorted stems of the missing files; failures are as walked and never missing |
| Diagnostics.Report | save_csv.py:243-293 | the summary's missing rows are `expected - found`, sorted without repeats, and its stems are their distinct sorted unit names |
| Diagnostics.MissingMembers | save_csv.py:243 | `expected_files - found_files` holds exactly the expected triples whose file is not listed; every failed file was found |
| Diagnostics.GridFileFailsOnContent | save_csv.py:145-180 | a found file whose name is on the grid can fail only on its content |
| Diagnostics.MissingStemIsUnit | save_csv.py:254 | each missing stem is the unit name of a configured (J, R, E, M), and decodes back to it |
| Generate.Combined | run_gen.py:92-93 | `combined` has exactly the keys of the merged dictionaries |
| Generate.CombinedLookup | run_gen.py:92-93 | a unit is in `combined` iff some experiment produced it; its value is the converted value of the last producer, with no numpy integer, float or array outside tuples and dictionary keys |
| Generate.PutEntry | run_gen.py:110 | after `d[k] = v` the dict holds `k: v` and every other entry it held |
| Generate.Kept | run_gen.py:110 | the kept indices are exactly those of the ranking found in `int2str` |
| Generate.PartialParamsEntries | run_gen.py:110 | `partial_params` maps exactly the names of the ranked indices to their parameters |
| Generate.PartialParamsInOrder | run_gen.py:110 | without repeated indices, `partial_params` lists the ranked biomarkers in ranking order |
| Generate.PartialParamsOfRanking | run_gen.py:50-52 | with the real `int2str`, the kept indices are those in `0..N-1`, and entry i is the i-th kept index's sorted name with its parameters |
| Generate.DataDirNames | run_gen.py:66-67 | one output directory, or two for a Mallows method, each named after the method |
| Generate.OutputNames | run_gen.py:133-136 | the directories are distinct and each JSON file is `true_order_and_stages_{dir}.json` |
| Generate.UnitJobs | run_gen.py:107-131 | one generator call per row of the ordering array |
| Generate.UnitJobAt | run_gen.py:118-131 | call `idx` uses experiment `E`, `int(J) * TIMES_MORE`, `float(R)`, prefix `PR{idx}_m{M}` and the row's partial parameters |
| Generate.GeneratePartialRankings | run_gen.py:104-131 | the loop over `combined` issues the calls of `Jobs` and stops at the first bad unit |
| Generate.UnitPartialRankings | run_gen.py:105-131 | the calls of one unit, or the error decoding its name |
| Generate.RowJobs | run_gen.py:107-131 | the loop over the rows issues one call each, or fails on `float(R)` when a row exists |
| Generate.JobsStop | run_gen.py:104-105 | once a unit fails, the later units are not reached |
| Generate.UnitRunComplete | run_gen.py:105-123 | a unit succeeds iff its name decodes and, when it has rows, `R` parses; it then yields one call per row |
| Generate.JobsComplete | run_gen.py:104-131 | the run succeeds iff every unit does, and then issues one call per row of every unit |
| Generate.PrefixDigits | run_gen.py:130 | the prefix carries the index in decimal, followed by `_` |
| Generate.UnitPrefixesDistinct | run_gen.py:130 | different rows of a unit get different prefixes |
| MetaTable.MpMethod | run_meta.py:87 | the sampling method is the framework, or `Mallows_Tau` exactly when the framework contains it |
| MetaTable.MallowsTemperature | run_meta.py:88 | the temperature is 1 only for `Mallows_Tau_T1`, and 10 otherwise |
| MetaTable.NonRandom | run_meta.py:83 | the frameworks kept are exactly those other than `Random` |
| MetaTable.NonRandomAppend | run_meta.py:83 | the filter distributes over concatenation |
| MetaTable.FrameworkDict | run_meta.py:104-142 | `curr_dic` carries the framework, the experiment number and an overlap rate in [0, 1] |
| MetaTable.MethodDicts | run_meta.py:143-176 | one copy of `curr_dic` per inference method, in order, each with its own rho |
| MetaTable.WithParams | run_meta.py:178-180 | every row gets the same J, R, E and M columns |
| MetaTable.BuildMetaTable | run_meta.py:43-180 | the script builds the table of `MetaOutcome`, or stops with its error |
| MetaTable.TableFor | run_meta.py:43-180 | the table of one decoded unit name, or `BadName` |
| MetaTable.UnitTable | run_meta.py:85-180 | the loop over frameworks builds the rows, or stops at the first missing JSON file or unit |
| MetaTable.AppendMethods | run_meta.py:143-176 | the inner loop appends one dict per inference method |
| MetaTable.MissingStops | run_meta.py:89-96 | the first framework without its JSON file or unit entry ends the run with that error |
| MetaTable.AllDictsFailureSticks | run_meta.py:85-92 | after a failure the later frameworks are not reached |
| MetaTable.AllDictsSuccess | run_meta.py:85-176 | the loop succeeds iff every framework has its JSON file and the unit |
| MetaTable.AllDictsFirstMissing | run_meta.py:89-96 | a failure names the first framework that lacks its file or the unit |
| MetaTable.AllDictsShape | run_meta.py:85-176 | four rows per framework: row `4i+k` is framework `i`'s dict with inference method `k` and its rho |
| MetaTable.AllDictsLength | run_meta.py:143-176 | a successful loop gives four rows per framework |
| MetaTable.MetaOutcomeErrors | run_meta.py:43-180 | the run fails with `BadName` iff the name does not decode, succeeds iff all frameworks are present and `R` parses, and fails on `R` otherwise |
| MetaTable.MetaOutcomeRows | run_meta.py:43-180 | a successful table has four rows per non-`Random` framework, each with the unit's J, R, pretty E and M |
| MetaTable.MetaTitlesDistinct | run_meta.py:56-69 | the titles are distinct |
| MetaTable.MetaExperimentNumber | run_meta.py:71-78 | the k-th experiment gets the k-th title and a positive number |
| MetaTable.MallowsDirectoriesTemperature | run_meta.py:88 | both Mallows directories named by run_gen.py get temperature 10; only `Mallows_Tau_T1` gets 1 |
| Mlhc.ByValueTotalPreorder | run_mlhc.py:95 | ordering by likelihood value is total and transitive |
| Mlhc.ToIndices | run_mlhc.py:96 | the conversion succeeds iff every name is in `str2int`, and then maps each name to its index |
| Mlhc.SortedItemsOrdered | run_mlhc.py:95 | the sorted items are a permutation ordered by value |
| Mlhc.SortedItemsStable | run_mlhc.py:95 | items with equal values keep their order |
| Mlhc.OrderingNamesPermutation | run_mlhc.py:95 | the ordering lists each biomarker exactly once |
| Mlhc.NamesOfPermutation | run_mlhc.py:95 | the ordering names are the item names |
| Mlhc.PartialOrderingIndices | run_mlhc.py:95-96 | the partial ordering exists iff every name is a parameter, and each index maps back to the name at its position |
| Mlhc.PrIndexRoundTrip | run_mlhc.py:83-84 | the index is read back from the partial-ranking file name |
| Mlhc.PrDataFileNamesDistinct | run_mlhc.py:83-84 | different partial rankings read different files |
| Mlhc.PrDataFileOfJob | run_mlhc.py:83-84 | the file read for ranking `idx` starts with the prefix of the generator call for `idx` and names its number of subjects |
| Mlhc.EstimateAll | run_mlhc.py:37-97 | the script's estimates are those of `MlhcOutcome` |
| Mlhc.EstimateDirs | run_mlhc.py:55-97 | the loop over directories yields each directory's estimates or the first failure |
| Mlhc.EstimateStep | run_mlhc.py:55-97 | one directory as the step of the loop |
| Mlhc.EstimateDir | run_mlhc.py:61-97 | the estimates of one directory, or why it stops |
| Mlhc.EstimatesFailureSticks | run_mlhc.py:80-97 | after an unconvertible ranking the later ones are not reached |
| Mlhc.RunDirsStopsAt | run_mlhc.py:63-77 | the first directory that fails ends the run with its error |
| Mlhc.RunDirsFailureSticks | run_mlhc.py:55 | after a failure the later directories are not reached |
| Mlhc.EstimatesAt | run_mlhc.py:80-97 | estimate `idx` is the ordering read for ranking `idx` |
| Mlhc.EstimatesLength | run_mlhc.py:78-80 | one estimate per row of the ordering array |
| Mlhc.EstimatesSuccess | run_mlhc.py:80-97 | the estimates exist iff every ranking converts; otherwise the first that does not is reported |
| Mlhc.DirOutcomeSuccess | run_mlhc.py:61-97 | a directory with estimates has its data file, its JSON file and the unit entry, and one estimate per row |
| Mlhc.RunDirsShape | run_mlhc.py:55-97 | a successful run has one result per directory, each the step's result |
| Mlhc.MlhcOutcomeShape | run_mlhc.py:55-97 | a successful run has one estimate list per directory, each that directory's outcome, with one estimate per ordering-array row |
| Mlhc.MlhcNameChecked | run_mlhc.py:55-61 | the name is decoded inside the loop: no directories means nothing is checked, and otherwise a bad name stops the run at the first |

## Left out

- File and directory I/O are inputs.
  - Directory listings, file contents and the JSON files become maps (`Env`,
    `jsons`, `dataFiles`).
  - `os.path.join` paths are the (directory, algorithm, file) triples they are
    built from.
  - The text written to `all_results.csv`, `missing_files.txt`,
    `na_combinations.txt` and `failed_files.txt` is the `Summary` of the
    rows. Each empty list stands for a file that is not written.
- Config and parameter loading (`yaml.safe_load`, `json.load`, `load_config`,
  `get_params_path`) is left out. The configuration values and the parameter
  names are parameters.
- `print`, `tqdm` and `sys.exit` messages are left out. An exit or an uncaught
  exception is a `Failure` value.
- The log copying of save_csv.py (lines 268-286) only moves files and prints
  messages, so it is left out.
- Floating point is left out:
  - `float(R)` is the exact decimal value of `R`;
  - the metrics are `real`;
  - the averages and the overlap rate are exact rationals.
- `\d` is read as ASCII `0-9`. Python also accepts other Unicode digits.
- Reconcile.ProcessFile: the `FileNotFoundError` of a data directory without
  its `true_order_and_stages_{data_dir}.json` (save_csv.py line 116), the
  `KeyError` on a unit missing from the true orders, and the division by zero
  on an empty ordering array are preconditions (`Ready`, `Loadable`). They are
  not modelled as crashes.
- The failure messages of save_csv.py are the `Reason` datatype. Their text and
  the path prefix are not modelled.
- A JSON value that is not an object is `OtherJson`: only whether `in` can be
  applied to it and whether both metric names are in it are kept.
- The generator (`pyjpm.generate`), the samplers (`PlackettLuce`, `MCMC`),
  `compute_conflict2`, `get_average_tau`, `spearmanr` and `run_mpebm` are calls
  into code that is not part of this model:
  - their results enter as parameters (`measure`, `rho`, `highestLl`);
  - a generator call is the `Job` record of its arguments.
- The random number generator and the seeds it draws are left out. The model
  does not capture which seed goes to which call. `measure`, `rho` and
  `highestLl` are functions of the names alone, so a framework listed twice gets
  the same values both times, where run_meta.py (lines 108-169) and
  run_mlhc.py (line 81) draw fresh random numbers for each call.
- MetaTable.FrameworkDict takes conflict, separation and sharpness from
  `measure`. Only the overlap rate is computed in the model.
- Mlhc.EstimateAll stops after the estimated partial rankings. Step 1 and
  Step 2 (`run_mpebm` with saving), `get_unique_rows` and the output folders
  are left out.
- `true_order` and `true_stages` in run_mlhc.py are only passed to `run_mpebm`,
  so their values are left out.
- Every entry of a `true_order_and_stages` JSON file is taken to hold
  `ordering_array`, in run_mlhc.py also `true_order` and `true_stages`, and in
  save_csv.py also `n_partial_rankings`: the model maps a unit straight to its
  ordering array (and, in save_csv.py, to `UnitInfo`). The `KeyError` raised
  when one of these keys is missing (run_meta.py line 96, run_mlhc.py lines
  75-77, save_csv.py lines 131 and 137) is not modelled, and `MetaError`,
  `MlhcError` and `Reason` do not list it.
- `convert_np_types` (run_gen.py lines 17-30) leaves `np.bool_` values, tuple
  contents and dictionary keys unconverted, and so does NpConvert.Convert: such
  numpy values can remain in `combined`.
- Ordering arrays are taken to be rectangular. A `seq<seq<int>>` also holds
  ragged rows, for which `np.array` raises in recent numpy and `np.unique`
  (run_meta.py line 31) fails in older numpy; Overlap.OverlapRate and
  Reconcile.AverageLength give those rows a value instead.
- Generate.GeneratePartialRankings takes the order in which `combined` is
  walked as the `units` sequence, so it does not model dictionary insertion
  order.
- Generate.GeneratePartialRankings models the Mallows branch (lines 174-200)
  through the same per-directory function, once per directory of
  `DataDirNames`.
- Generate.GeneratePartialRankings takes `units` and `orderings` as parameters
  and does not tie them to `Combined` of the data directories; that every unit
  has an ordering array is a precondition, so the `KeyError` on
  `fname_data['ordering_array']` (run_gen.py lines 106 and 176) is not modelled.
- The grid holds each `RS` value as the text Python prints for it,
  and `JS` values as natural numbers. The model does not derive that text from
  a float: it assumes `RS` values that print as plain decimals. A value that
  prints in exponent form, such as `1e-05`, gives a name that the name pattern
  `[\d.]+` rejects.
- The Python values of the model have no 0-dimensional array: `np.array(3).tolist()` is a
  scalar, and such an array is not modelled.
- `TIMES_MORE` is a natural number in run_mlhc.py and an integer in run_gen.py.
- run_adni.py is not part of this model.
